/**
 One `ImplicitProducer` of `concurrentqueue.h`: a single producing thread, any number of
 dequeuing threads, blocks of 32 elements that are recycled by the thread that empties them,
 and the growable circular block index through which elements are found.

 Atomic steps, sequentially consistent.  The ticket part of a dequeue is module Tickets,
 embedded as `tk` (its `tail` and `head` are `tailIndex` and `headIndex`).  `enqueue` takes the
 steps of `enqueue_bulk` with one element; `dequeue` those of `dequeue_bulk` with `max == 1`.

 The free list and the initial block pool are one pool here: a block is taken from it at most
 once between two returns (module FreeList), other producers take and return blocks too.

 History variables: `num` of an entry, `shift` of a header, `live`, `top`, `frontier`, `items`,
 `claim`, `delivered`, `own` (except that only a Free block can be requisitioned), and all of an
 operation's record but `xs` and `startBlock`.
 */
module ImplicitQueue {
  import opened Counting
  import T = Tickets

  type Elem = int
  type BlockId = nat

  const BLOCK_SIZE: nat := 32
  const IMPLICIT_INITIAL_INDEX_SIZE: nat := 32
  const INVALID_BLOCK_BASE: int := 1

  datatype Slot = Null | Ref(block: BlockId)

  // num: the block number this entry stands for, or will stand for, in the newest index
  datatype Entry = Entry(key: int, value: Slot, num: int)

  // shift: block number p belongs at position (p + shift) modulo capacity
  datatype Header = Header(capacity: nat, tail: nat, index: seq<nat>, shift: int)

  datatype Block = Block(elems: seq<Elem>, emptied: nat)

  datatype Owner =
    | Free
    | Elsewhere                  // with another producer
    | WithProducer               // requisitioned, not in the index
    | InUse(p: nat)              // block number p
    | Emptied(p: nat, t: nat)    // all 32 elements moved out, t is about to unlink it
    | Retiring(t: nat)           // unlinked, t is about to put it on the free list

  datatype Claim = By(t: nat) | Done

  datatype Op = Op(xs: seq<Elem>, startBlock: Slot, top0: int, live0: map<int, BlockId>, tail0: nat)

  // The producing thread, inside enqueue_bulk; got are the blocks requisitioned so far.
  datatype Producer =
    | Rest
    | Look(op: Op, got: seq<BlockId>)
    | StoreKey(op: Op, got: seq<BlockId>, e: nat)
    | StoreTail(op: Op, got: seq<BlockId>, e: nat)
    | Grow(op: Op, got: seq<BlockId>)
    | Requisition(op: Op, got: seq<BlockId>, e: nat)
    | ResetEmpty(op: Op, got: seq<BlockId>, e: nat, b: BlockId)
    | Install(op: Op, got: seq<BlockId>, e: nat, b: BlockId)
    // failure
    | RewindNew(op: Op, got: seq<BlockId>, e: nat)
    | NullNew(op: Op, got: seq<BlockId>, e: nat)
    | UndoValue(op: Op, got: seq<BlockId>, j: nat)
    | UndoTail(op: Op, got: seq<BlockId>, j: nat)
    | GiveBack(op: Op, got: seq<BlockId>, j: nat)
    | Failed(op: Op)
    // success
    | Fill(op: Op, got: seq<BlockId>, j: nat)
    | ProducerCrash

  // A dequeuing thread that has claimed the elements lo, ..., hi - 1.
  datatype Reader =
    | Off
    | LoadIndex(lo: nat, hi: nat)
    | LoadIndexTail(lo: nat, hi: nat, h: nat)
    | LoadTailKey(lo: nat, hi: nat, h: nat, tl: nat)
    | LoadValue(lo: nat, hi: nat, h: nat, idx: nat)
    | Move(lo: nat, hi: nat, h: nat, idx: nat, b: BlockId, i: nat, end: nat)
    | SetEmpty(lo: nat, hi: nat, h: nat, idx: nat, b: BlockId, end: nat)
    | Unlink(lo: nat, hi: nat, h: nat, idx: nat, b: BlockId)    // lo is the end of the emptied block
    | Recycle(lo: nat, hi: nat, h: nat, idx: nat, b: BlockId)
    | ReaderCrash

  datatype State = State(
    tk: T.State,
    blocks: seq<Block>,
    own: seq<Owner>,
    entries: seq<Entry>,
    headers: seq<Header>,        // the last one is blockIndex, each one's prev is the one before
    tailBlock: Slot,
    prod: Producer,
    readers: seq<Reader>,
    live: map<int, BlockId>,     // block numbers in the index that are not recycled
    top: int,                    // the block number at the index tail
    frontier: int,               // the highest block number ever given a place in the newest index
    items: seq<Elem>,            // everything enqueued
    claim: seq<Claim>,           // for each index below headIndex
    delivered: map<nat, Elem>)   // what was moved out, by index

  datatype Choice =
    | Plain
    | Take(b: BlockId)
    | Create(junk: seq<Elem>)
    | NoBlock
    | NoMemory
    | NewIndex(values: seq<Slot>)

  datatype Act =
    | Enqueue(xs: seq<Elem>)
    | Produce(c: Choice)
    | Ticket(a: T.Act)
    | Read(t: nat)
    | OthersTake(b: BlockId)
    | OthersReturn(b: BlockId)

  // Blocks needed to hold the elements 0, ..., n - 1.
  function Blocks(n: nat): nat { (n + 31) / 32 }

  function First(s: State): nat { Blocks(s.tk.tail) }

  function Cur(s: State): Header
    requires s.headers != []
  { s.headers[|s.headers| - 1] }

  // ------------------------------------------------------------------------------------
  // Well-formed states: every index a step uses is in range

  ghost predicate HeaderShape(h: Header, entries: nat)
  {
    && h.capacity > 0 && |h.index| == h.capacity && h.tail < h.capacity
    && forall i :: 0 <= i < |h.index| ==> h.index[i] < entries
  }

  ghost predicate GotShape(got: seq<BlockId>, blocks: nat) { forall k :: 0 <= k < |got| ==> got[k] < blocks }

  ghost predicate ProducerShape(p: Producer, entries: nat, blocks: nat, tail: nat)
  {
    match p
    case Rest => true
    case Look(op, got) => OpShape(op, blocks) && GotShape(got, blocks)
    case StoreKey(op, got, e) => OpShape(op, blocks) && GotShape(got, blocks) && e < entries
    case StoreTail(op, got, e) => OpShape(op, blocks) && GotShape(got, blocks) && e < entries
    case Grow(op, got) => OpShape(op, blocks) && GotShape(got, blocks)
    case Requisition(op, got, e) => OpShape(op, blocks) && GotShape(got, blocks) && e < entries
    case ResetEmpty(op, got, e, b) => OpShape(op, blocks) && GotShape(got, blocks) && e < entries && b < blocks
    case Install(op, got, e, b) => OpShape(op, blocks) && GotShape(got, blocks) && e < entries && b < blocks
    case RewindNew(op, got, e) => OpShape(op, blocks) && GotShape(got, blocks) && e < entries
    case NullNew(op, got, e) => OpShape(op, blocks) && GotShape(got, blocks) && e < entries
    case UndoValue(op, got, j) => OpShape(op, blocks) && GotShape(got, blocks) && j <= |got|
    case UndoTail(op, got, j) => OpShape(op, blocks) && GotShape(got, blocks) && j < |got|
    case GiveBack(op, got, j) => OpShape(op, blocks) && GotShape(got, blocks) && j <= |got|
    case Failed(op) => true
    case Fill(op, got, j) =>
      OpShape(op, blocks) && GotShape(got, blocks) && j <= |op.xs| && Blocks(tail) + |got| == Blocks(tail + |op.xs|)
    case ProducerCrash => true
  }

  ghost predicate OpShape(op: Op, blocks: nat) { op.startBlock.Ref? ==> op.startBlock.block < blocks }

  ghost predicate ReaderShape(r: Reader, headers: seq<Header>, blocks: nat)
  {
    match r
    case Off => true
    case LoadIndex(lo, hi) => lo < hi
    case LoadIndexTail(lo, hi, h) => lo < hi && h < |headers|
    case LoadTailKey(lo, hi, h, tl) => lo < hi && h < |headers| && tl < headers[h].capacity
    case LoadValue(lo, hi, h, idx) => lo < hi && h < |headers| && idx < headers[h].capacity
    case Move(lo, hi, h, idx, b, i, end) =>
      lo <= i < end <= hi && h < |headers| && idx < headers[h].capacity && b < blocks
    case SetEmpty(lo, hi, h, idx, b, end) =>
      lo < end <= hi && h < |headers| && idx < headers[h].capacity && b < blocks
    case Unlink(lo, hi, h, idx, b) => 0 < lo <= hi && h < |headers| && idx < headers[h].capacity && b < blocks
    case Recycle(lo, hi, h, idx, b) => 0 < lo <= hi && h < |headers| && idx < headers[h].capacity && b < blocks
    case ReaderCrash => true
  }

  ghost predicate HeadersShape(headers: seq<Header>, entries: nat)
  {
    headers != [] && forall h :: 0 <= h < |headers| ==> HeaderShape(headers[h], entries)
  }

  ghost predicate BlocksShape(blocks: seq<Block>, own: seq<Owner>)
  {
    |own| == |blocks| && forall b :: 0 <= b < |blocks| ==> |blocks[b].elems| == BLOCK_SIZE
  }

  ghost predicate EntriesShape(entries: seq<Entry>, blocks: nat)
  {
    forall e :: 0 <= e < |entries| ==> SlotShape(entries[e].value, blocks)
  }

  ghost predicate ReadersShape(readers: seq<Reader>, headers: seq<Header>, blocks: nat)
  {
    forall t :: 0 <= t < |readers| ==> ReaderShape(readers[t], headers, blocks)
  }

  ghost predicate Shape(s: State)
  {
    && HeadersShape(s.headers, |s.entries|)
    && BlocksShape(s.blocks, s.own)
    && EntriesShape(s.entries, |s.blocks|)
    && ProducerShape(s.prod, |s.entries|, |s.blocks|, s.tk.tail)
    && |s.readers| == |s.tk.threads|
    && ReadersShape(s.readers, s.headers, |s.blocks|)
    && (s.prod.Rest? || s.prod.Failed? ==> SlotShape(s.tailBlock, |s.blocks|))
  }

  // A null or a real block; entries of a fresh index may hold either.
  ghost predicate SlotShape(v: Slot, blocks: nat) { v.Ref? ==> v.block < blocks }

  // ------------------------------------------------------------------------------------
  // Steps

  ghost predicate Enabled(s: State, a: Act)
  {
    match a
    case Enqueue(_) => s.prod.Rest?
    case Produce(c) =>
      (match s.prod
       case Rest => false
       case ProducerCrash => false
       case Requisition(_, _, _) =>
         (c.Take? && c.b < |s.own| && s.own[c.b].Free?) || (c.Create? && |c.junk| == BLOCK_SIZE) || c.NoBlock?
       case Grow(_, _) =>
         s.headers != [] && (c.NoMemory? ||
           (c.NewIndex? && |c.values| == Cur(s).capacity && forall i :: 0 <= i < |c.values| ==>
             SlotShape(c.values[i], |s.blocks|)))
       case _ => c.Plain?)
    case Ticket(ta) =>
      !ta.Publish? && T.Enabled(s.tk, ta) && (ta.Start? ==> ta.t < |s.readers| && s.readers[ta.t].Off?)
    case Read(t) => t < |s.readers| && !s.readers[t].Off? && !s.readers[t].ReaderCrash?
    case OthersTake(b) => b < |s.own| && s.own[b].Free?
    case OthersReturn(b) => b < |s.own| && s.own[b].Elsewhere?
  }

  ghost function Next(s: State, a: Act): State
    requires Shape(s) && Enabled(s, a)
  {
    match a
    case Enqueue(xs) => s.(prod := Look(Op(xs, s.tailBlock, s.top, s.live, s.tk.tail), []))
    case Produce(c) => ProduceStep(s, c)
    case Ticket(ta) => TicketStep(s, ta)
    case Read(t) => ReadStep(s, t)
    case OthersTake(b) => s.(own := s.own[b := Elsewhere])
    case OthersReturn(b) => s.(own := s.own[b := Free])
  }

  // Position i in header h, counted on from its tail.
  function At(h: Header, i: int): nat
    requires h.capacity > 0
  { (h.tail + i) % h.capacity }

  function SetTail(headers: seq<Header>, tail: nat): seq<Header>
    requires headers != []
  {
    headers[|headers| - 1 := headers[|headers| - 1].(tail := tail)]
  }

  // new_block_index: twice the capacity, the old entries first, oldest to newest, then fresh ones.
  function Enlarge(h: Header, entries: nat, frontier: int): (r: Header)
    requires h.capacity > 0 && |h.index| == h.capacity
  {
    Header(2 * h.capacity, h.capacity - 1,
           seq(h.capacity, i requires 0 <= i < h.capacity => h.index[At(h, i + 1)])
             + seq(h.capacity, i requires 0 <= i => entries + i),
           h.capacity - 1 - frontier)
  }

  function FreshEntries(h: Header, frontier: int, values: seq<Slot>): seq<Entry>
  {
    seq(|values|, i requires 0 <= i < |values| =>
      Entry(INVALID_BLOCK_BASE, values[i], frontier + 1 + i - 2 * h.capacity))
  }

  // The position get_block_index_index_for_index computes, from a tail and the key found there.
  function Locate(h: Header, tl: nat, key: int, p: nat): nat
    requires h.capacity > 0
  {
    (tl + (BLOCK_SIZE * p - key) / BLOCK_SIZE) % h.capacity
  }

  // The block that element i of the operation goes to: the old tail block, then the new ones.
  function Target(op: Op, got: seq<BlockId>, first: nat, p: nat): Slot
  {
    if p < first then op.startBlock else if p - first < |got| then Ref(got[p - first]) else Null
  }

  ghost function ProduceStep(s: State, c: Choice): State
    requires Shape(s) && Enabled(s, Produce(c))
  {
    match s.prod
    case Look(op, got) =>
      var h := Cur(s);
      if First(s) + |got| < Blocks(s.tk.tail + |op.xs|) then
        var e := h.index[At(h, 1)];
        if s.entries[e].key == INVALID_BLOCK_BASE || s.entries[e].value == Null then
          s.(prod := StoreKey(op, got, e))
        else
          s.(prod := Grow(op, got))
      else if First(s) + |got| == Blocks(s.tk.tail + |op.xs|) then
        s.(prod := Fill(op, got, 0))
      else
        s.(prod := ProducerCrash)
    case StoreKey(op, got, e) =>
      var p := First(s) + |got|;
      s.(entries := s.entries[e := s.entries[e].(key := BLOCK_SIZE * p, num := p)],
         frontier := if p > s.frontier then p else s.frontier,
         prod := StoreTail(op, got, e))
    case StoreTail(op, got, e) =>
      s.(headers := SetTail(s.headers, At(Cur(s), 1)), top := s.top + 1, prod := Requisition(op, got, e))
    case Grow(op, got) =>
      if c.NewIndex? then
        var h := Cur(s);
        s.(headers := s.headers + [Enlarge(h, |s.entries|, s.frontier)],
           entries := s.entries + FreshEntries(h, s.frontier, c.values),
           prod := StoreKey(op, got, |s.entries|))
      else
        s.(prod := UndoValue(op, got, 0))
    case Requisition(op, got, e) =>
      (match c
       case Take(b) => s.(own := s.own[b := WithProducer], prod := ResetEmpty(op, got, e, b))
       case Create(junk) =>
         s.(blocks := s.blocks + [Block(junk, 0)], own := s.own + [WithProducer],
            prod := ResetEmpty(op, got, e, |s.blocks|))
       case _ => s.(prod := RewindNew(op, got, e)))
    case ResetEmpty(op, got, e, b) =>
      s.(blocks := s.blocks[b := s.blocks[b].(emptied := 0)], prod := Install(op, got, e, b))
    case Install(op, got, e, b) =>
      var p := First(s) + |got|;
      s.(entries := s.entries[e := s.entries[e].(value := Ref(b))], tailBlock := Ref(b),
         live := s.live[p := b], own := s.own[b := InUse(p)],
         prod := Look(op, got + [b]))
    case RewindNew(op, got, e) =>
      s.(headers := SetTail(s.headers, At(Cur(s), -1)), top := s.top - 1, prod := NullNew(op, got, e))
    case NullNew(op, got, e) =>
      s.(entries := s.entries[e := s.entries[e].(value := Null)], prod := UndoValue(op, got, 0))
    case UndoValue(op, got, j) =>
      if j < |got| then
        var h := Cur(s);
        var p := First(s) + j;
        var e := h.index[Locate(h, h.tail, s.entries[h.index[h.tail]].key, p)];
        s.(entries := s.entries[e := s.entries[e].(value := Null)],
           live := s.live - {p}, own := s.own[got[j] := WithProducer],
           prod := UndoTail(op, got, j))
      else
        s.(prod := GiveBack(op, got, 0))
    case UndoTail(op, got, j) =>
      s.(headers := SetTail(s.headers, At(Cur(s), -1)), top := s.top - 1, prod := UndoValue(op, got, j + 1))
    case GiveBack(op, got, j) =>
      if j < |got| then
        s.(own := s.own[got[j] := Free], prod := GiveBack(op, got, j + 1))
      else
        s.(tailBlock := op.startBlock, prod := Failed(op))
    case Failed(op) => s.(prod := Rest)
    case Fill(op, got, j) =>
      if j < |op.xs| then
        var i := s.tk.tail + j;
        (match Target(op, got, First(s), i / BLOCK_SIZE)
         case Ref(b) =>
           s.(blocks := s.blocks[b := s.blocks[b].(elems := s.blocks[b].elems[i % BLOCK_SIZE := op.xs[j]])],
              prod := Fill(op, got, j + 1))
         case Null => s.(prod := ProducerCrash))
      else
        s.(tk := T.Next(s.tk, T.Publish(|op.xs|)), items := s.items + op.xs,
           tailBlock := if got == [] then op.startBlock else Ref(got[|got| - 1]),
           prod := Rest)
  }

  ghost function TicketStep(s: State, ta: T.Act): State
    requires Shape(s) && Enabled(s, Ticket(ta))
  {
    var tk' := T.Next(s.tk, ta);
    if ta.Go? && s.tk.threads[ta.t].ClaimHead? then
      var got := s.tk.threads[ta.t].got;
      s.(tk := tk', claim := s.claim + seq(got, i => By(ta.t)),
         readers := s.readers[ta.t := if got == 0 then Off else LoadIndex(s.tk.head, s.tk.head + got)])
    else
      s.(tk := tk')
  }

  // After one block is dealt with: the next one through the same header, or the end.
  function NextBlock(lo: nat, hi: nat, h: nat, idx: nat, capacity: nat): Reader
    requires capacity > 0
  {
    if lo >= hi then Off else LoadValue(lo, hi, h, (idx + 1) % capacity)
  }

  function SetDone(claim: seq<Claim>, lo: nat, hi: nat): (r: seq<Claim>)
    ensures |r| == |claim|
    ensures forall i {:trigger r[i]} {:trigger claim[i]} :: 0 <= i < |claim| ==>
      r[i] == if lo <= i < hi then Done else claim[i]
  {
    seq(|claim|, i requires 0 <= i < |claim| => if lo <= i < hi then Done else claim[i])
  }

  ghost function ReadStep(s: State, t: nat): State
    requires Shape(s) && Enabled(s, Read(t))
  {
    match s.readers[t]
    case LoadIndex(lo, hi) =>
      s.(readers := s.readers[t := LoadIndexTail(lo, hi, |s.headers| - 1)])
    case LoadIndexTail(lo, hi, h) =>
      s.(readers := s.readers[t := LoadTailKey(lo, hi, h, s.headers[h].tail)])
    case LoadTailKey(lo, hi, h, tl) =>
      var key := s.entries[s.headers[h].index[tl]].key;
      s.(readers := s.readers[t := LoadValue(lo, hi, h, Locate(s.headers[h], tl, key, lo / BLOCK_SIZE))])
    case LoadValue(lo, hi, h, idx) =>
      (match s.entries[s.headers[h].index[idx]].value
       case Ref(b) => s.(readers := s.readers[t := Move(lo, hi, h, idx, b, lo,
         Min(hi, (lo / BLOCK_SIZE + 1) * BLOCK_SIZE))])
       case Null => s.(readers := s.readers[t := ReaderCrash]))
    case Move(lo, hi, h, idx, b, i, end) =>
      s.(delivered := s.delivered[i := s.blocks[b].elems[i % BLOCK_SIZE]],
         readers := s.readers[t :=
           if i + 1 < end then Move(lo, hi, h, idx, b, i + 1, end) else SetEmpty(lo, hi, h, idx, b, end)])
    case SetEmpty(lo, hi, h, idx, b, end) =>
      var now := s.blocks[b].emptied + (end - lo);
      s.(blocks := s.blocks[b := s.blocks[b].(emptied := now)],
         claim := SetDone(s.claim, lo, end),
         own := if now == BLOCK_SIZE then s.own[b := Emptied((end - 1) / BLOCK_SIZE, t)] else s.own,
         readers := s.readers[t := if now == BLOCK_SIZE then Unlink(end, hi, h, idx, b)
                                   else NextBlock(end, hi, h, idx, s.headers[h].capacity)])
    case Unlink(lo, hi, h, idx, b) =>
      var e := s.headers[h].index[idx];
      s.(entries := s.entries[e := s.entries[e].(value := Null)],
         live := s.live - {(lo - 1) / BLOCK_SIZE}, own := s.own[b := Retiring(t)],
         readers := s.readers[t := Recycle(lo, hi, h, idx, b)])
    case Recycle(lo, hi, h, idx, b) =>
      s.(own := s.own[b := Free],
         readers := s.readers[t := NextBlock(lo, hi, h, idx, s.headers[h].capacity)])
  }

  // An empty producer with its first index; the blocks are free or with other producers.
  ghost predicate Init(s: State)
  {
    && T.Init(s.tk)
    && |s.own| == |s.blocks|
    && (forall b :: 0 <= b < |s.blocks| ==>
      |s.blocks[b].elems| == BLOCK_SIZE && (s.own[b].Free? || s.own[b].Elsewhere?))
    && |s.entries| == IMPLICIT_INITIAL_INDEX_SIZE
    && (forall e :: 0 <= e < |s.entries| ==>
          s.entries[e].key == INVALID_BLOCK_BASE && s.entries[e].num == e - IMPLICIT_INITIAL_INDEX_SIZE
          && SlotShape(s.entries[e].value, |s.blocks|))
    && s.headers == [Header(IMPLICIT_INITIAL_INDEX_SIZE, IMPLICIT_INITIAL_INDEX_SIZE - 1,
                            seq(IMPLICIT_INITIAL_INDEX_SIZE, i requires 0 <= i => i), 0)]
    && s.tailBlock == Null && s.prod == Rest
    && |s.readers| == |s.tk.threads| && (forall t :: 0 <= t < |s.readers| ==> s.readers[t] == Off)
    && s.live == map[] && s.top == -1 && s.frontier == -1
    && s.items == [] && s.claim == [] && s.delivered == map[]
  }
}
