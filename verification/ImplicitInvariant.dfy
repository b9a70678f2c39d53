/**
 The invariant of module ImplicitQueue, one predicate per concern.
 */
module ImplicitInvariant {
  import opened Counting
  import opened Modular
  import opened ImplicitQueue
  import T = Tickets

  // ------------------------------------------------------------------------------------
  // The block index

  predicate Valid(e: Entry) { e.key != INVALID_BLOCK_BASE }

  // Where block number p belongs in a header.
  function Pos(h: Header, p: int): nat
    requires h.capacity > 0
  { (p + h.shift) % h.capacity }

  // Every entry a header lists stands for a number that belongs at its position.
  ghost predicate HeaderOk(h: Header, entries: seq<Entry>, capacity: nat)
  {
    && HeaderShape(h, |entries|)
    && Cong(capacity, 0, h.capacity)
    && forall i :: 0 <= i < h.capacity ==> Cong(entries[h.index[i]].num + h.shift, i, h.capacity)
  }

  // The newest index lists all entries, and they stand for the numbers of one window of its length.
  ghost predicate Layout(entries: seq<Entry>, headers: seq<Header>, frontier: int)
  {
    && headers != []
    && |entries| == headers[|headers| - 1].capacity
    && (forall e :: 0 <= e < |entries| ==> EntryOk(entries[e], frontier, |entries|))
    && (forall e, f :: 0 <= e < f < |entries| ==> entries[e].num != entries[f].num)
    && (forall h :: 0 <= h < |headers| ==> HeaderOk(headers[h], entries, |entries|))
  }

  ghost predicate EntryOk(e: Entry, frontier: int, capacity: nat)
  {
    && frontier - capacity < e.num <= frontier
    && (Valid(e) ==> e.num >= 0 && e.key == BLOCK_SIZE * e.num)
  }

  ghost predicate TailOk(entries: seq<Entry>, headers: seq<Header>, top: int)
  {
    && headers != []
    && (forall h :: 0 <= h < |headers| ==> HeaderShape(headers[h], |entries|))
    && (var c := headers[|headers| - 1]; Cong(top + c.shift, c.tail, c.capacity))
    && forall h :: 0 <= h < |headers| - 1 ==> OldTailOk(entries, headers[h])
  }

  ghost predicate OldTailOk(entries: seq<Entry>, h: Header)
    requires HeaderShape(h, |entries|)
  { Valid(entries[h.index[h.tail]]) }

  // Live block numbers are found through their entries ...
  ghost predicate LiveOk(entries: seq<Entry>, live: map<int, BlockId>, frontier: int)
  {
    && (forall p :: p in live ==> frontier - |entries| < p <= frontier)
    && (forall e :: 0 <= e < |entries| ==> LiveEntry(entries[e], live))
  }

  ghost predicate LiveEntry(e: Entry, live: map<int, BlockId>)
  {
    e.num in live ==> Valid(e) && e.value == Ref(live[e.num])
  }

  // ... and the other entries are empty, save the one being filled in.
  ghost predicate NullsOk(entries: seq<Entry>, live: map<int, BlockId>, inserting: int)
  {
    forall e :: 0 <= e < |entries| ==> NullEntry(entries[e], live, inserting)
  }

  ghost predicate NullEntry(e: Entry, live: map<int, BlockId>, inserting: int)
  {
    Valid(e) && e.num !in live && e.num != inserting ==> e.value == Null
  }

  // Keys are set from the oldest live block on, and beyond the published blocks.
  ghost predicate ValidsOk(entries: seq<Entry>, live: map<int, BlockId>, base: int)
  {
    && (forall e :: 0 <= e < |entries| ==> (entries[e].num > base ==> Valid(entries[e])))
    && (forall p, e :: p in live && 0 <= e < |entries| ==> (p <= entries[e].num ==> Valid(entries[e])))
  }

  ghost predicate NumbersOk(base: int, top: int, frontier: int, capacity: nat)
  {
    -1 <= base <= top <= frontier <= base + capacity
  }

  // ------------------------------------------------------------------------------------
  // Blocks

  ghost predicate OwnOk(own: seq<Owner>, live: map<int, BlockId>)
  {
    && (forall p :: p in live ==> live[p] < |own| && Serves(own[live[p]], p))
    && (forall b :: 0 <= b < |own| ==> Served(own, live, b))
  }

  predicate Serves(o: Owner, p: int) { (o.InUse? || o.Emptied?) && o.p == p }

  ghost predicate Served(own: seq<Owner>, live: map<int, BlockId>, b: nat)
    requires b < |own|
  {
    own[b].InUse? || own[b].Emptied? ==> own[b].p in live && live[own[b].p] == b
  }

  // Every element not yet moved out sits in the live block of its number.
  ghost predicate DataOk(blocks: seq<Block>, live: map<int, BlockId>, items: seq<Elem>, claim: seq<Claim>)
  {
    forall i :: 0 <= i < |items| ==> IsDone(claim, i) || Holds(blocks, live, i, items[i])
  }

  predicate IsDone(claim: seq<Claim>, i: nat) { i < |claim| && claim[i].Done? }

  predicate Holds(blocks: seq<Block>, live: map<int, BlockId>, i: nat, x: Elem)
  {
    var p := i / BLOCK_SIZE;
    p in live && live[p] < |blocks| && |blocks[live[p]].elems| == BLOCK_SIZE
      && blocks[live[p]].elems[i % BLOCK_SIZE] == x
  }

  // The indices of block number p that are dealt with.
  ghost function DoneIn(claim: seq<Claim>, p: nat): set<nat>
  {
    set i: nat | i < |claim| && BLOCK_SIZE * p <= i < BLOCK_SIZE * p + BLOCK_SIZE && claim[i].Done?
  }

  ghost predicate CountsOk(blocks: seq<Block>, own: seq<Owner>, claim: seq<Claim>)
  {
    && |blocks| == |own|
    && forall b :: 0 <= b < |own| ==> CountOk(blocks[b], own[b], claim)
  }

  ghost predicate CountOk(b: Block, o: Owner, claim: seq<Claim>)
  {
    match o
    case InUse(p) => b.emptied == |DoneIn(claim, p)| < BLOCK_SIZE
    case Emptied(p, _) => |DoneIn(claim, p)| == BLOCK_SIZE
    case _ => true
  }

  // A partly filled last block is still live, and the producer knows it.
  ghost predicate BaseOk(tail: nat, live: map<int, BlockId>, current: Slot)
  {
    tail % BLOCK_SIZE != 0 ==> tail / BLOCK_SIZE in live && current == Ref(live[tail / BLOCK_SIZE])
  }

  // The tail block of the producer as it was when its operation began.
  function Current(s: State): Slot
  {
    if s.prod.Rest? || s.prod.Failed? || s.prod.ProducerCrash? then s.tailBlock else s.prod.op.startBlock
  }

  // ------------------------------------------------------------------------------------
  // The producing thread

  // The block number whose entry has its key but not its block yet.
  function Inserting(s: State): int
  {
    match s.prod
    case StoreTail(_, got, _) => First(s) + |got|
    case Requisition(_, got, _) => First(s) + |got|
    case ResetEmpty(_, got, _, _) => First(s) + |got|
    case Install(_, got, _, _) => First(s) + |got|
    case RewindNew(_, got, _) => First(s) + |got|
    case NullNew(_, got, _) => First(s) + |got|
    case _ => -1
  }

  // Blocks requisitioned by the running operation and not in the index.
  ghost predicate ProducerHas(p: Producer, b: BlockId)
  {
    match p
    case ResetEmpty(_, _, _, c) => b == c
    case Install(_, _, _, c) => b == c
    case UndoValue(_, got, j) => exists k :: 0 <= k < j <= |got| && got[k] == b
    case UndoTail(_, got, j) => exists k :: 0 <= k <= j < |got| && got[k] == b
    case GiveBack(_, got, j) => exists k :: j <= k < |got| && got[k] == b
    case _ => false
  }

  // got[k], k >= j, are the live blocks of the numbers first + k, and there are no other new ones.
  ghost predicate GotLive(live: map<int, BlockId>, first: nat, got: seq<BlockId>, j: nat)
  {
    && (forall p :: first + j <= p < first + |got| ==> p in live && live[p] == got[p - first])
    && (forall p :: p in live ==> 0 <= p && (p < first || first + j <= p < first + |got|))
  }

  ghost predicate GotHeld(own: seq<Owner>, got: seq<BlockId>, lo: nat, hi: nat)
  {
    hi <= |got| && forall k :: lo <= k < hi ==> got[k] < |own| && own[got[k]] == WithProducer
  }

  // Nothing the operation found has changed, except for blocks that were emptied meanwhile.
  ghost predicate OpOk(s: State, op: Op)
  {
    && op.tail0 == s.tk.tail
    && op.top0 == First(s) - 1
    && (forall p :: p in op.live0 ==> 0 <= p < First(s) && (KeptLive(s.live, op.live0, p) || AllDone(s.claim, p)))
    && (forall p :: p in s.live && p < First(s) ==> p in op.live0 && s.live[p] == op.live0[p])
  }

  ghost predicate KeptLive(live: map<int, BlockId>, live0: map<int, BlockId>, p: int)
    requires p in live0
  { p in live && live[p] == live0[p] }

  ghost predicate AllDone(claim: seq<Claim>, p: nat) { |DoneIn(claim, p)| == BLOCK_SIZE }

  ghost predicate Written(s: State, xs: seq<Elem>, j: nat)
  {
    forall k :: 0 <= k < j <= |xs| ==> Holds(s.blocks, s.live, s.tk.tail + k, xs[k])
  }

  ghost predicate NextEntry(s: State, e: nat)
    requires Shape(s)
  { e == Cur(s).index[At(Cur(s), 1)] }

  ghost predicate ProducerOk(s: State)
    requires Shape(s)
  {
    var first, base := First(s), First(s) - 1;
    match s.prod
    case Rest => s.top == base && GotLive(s.live, first, [], 0)
    case Look(op, got) =>
      OpOk(s, op) && GotLive(s.live, first, got, 0) && Distinct(got) && s.top == base + |got|
      && first + |got| <= Blocks(s.tk.tail + |op.xs|)
    case StoreKey(op, got, e) =>
      OpOk(s, op) && GotLive(s.live, first, got, 0) && Distinct(got) && s.top == base + |got|
      && first + |got| < Blocks(s.tk.tail + |op.xs|)
      && NextEntry(s, e) && s.entries[e].num !in s.live
    case StoreTail(op, got, e) =>
      OpOk(s, op) && GotLive(s.live, first, got, 0) && Distinct(got) && s.top == base + |got|
      && first + |got| < Blocks(s.tk.tail + |op.xs|)
      && NextEntry(s, e) && s.entries[e].num == first + |got| && Valid(s.entries[e])
    case Grow(op, got) =>
      OpOk(s, op) && GotLive(s.live, first, got, 0) && Distinct(got) && s.top == base + |got|
      && first + |got| < Blocks(s.tk.tail + |op.xs|)
      && s.top == s.frontier && Valid(s.entries[Cur(s).index[Cur(s).tail]])
    case Requisition(op, got, e) => Inserted(s, op, got, e)
    case ResetEmpty(op, got, e, b) => Inserted(s, op, got, e) && s.own[b] == WithProducer
    case Install(op, got, e, b) => Inserted(s, op, got, e) && s.own[b] == WithProducer && s.blocks[b].emptied == 0
    case RewindNew(op, got, e) => Inserted(s, op, got, e)
    case NullNew(op, got, e) =>
      OpOk(s, op) && GotLive(s.live, first, got, 0) && Distinct(got) && s.top == base + |got|
      && s.entries[e].num == first + |got| && Valid(s.entries[e])
    case UndoValue(op, got, j) =>
      OpOk(s, op) && GotLive(s.live, first, got, j) && Distinct(got) && GotHeld(s.own, got, 0, j)
      && s.top == base + |got| - j && first + |got| <= s.frontier + 1
    case UndoTail(op, got, j) =>
      OpOk(s, op) && GotLive(s.live, first, got, j + 1) && Distinct(got) && GotHeld(s.own, got, 0, j + 1)
      && s.top == base + |got| - j && first + |got| <= s.frontier + 1
    case GiveBack(op, got, j) =>
      OpOk(s, op) && GotLive(s.live, first, [], 0) && Distinct(got) && GotHeld(s.own, got, j, |got|) && s.top == base
    case Failed(op) => OpOk(s, op) && GotLive(s.live, first, [], 0) && s.top == base && s.tailBlock == op.startBlock
    case Fill(op, got, j) =>
      OpOk(s, op) && GotLive(s.live, first, got, 0) && Distinct(got) && s.top == base + |got|
      && Written(s, op.xs, j)
    case ProducerCrash => false
  }

  ghost predicate Inserted(s: State, op: Op, got: seq<BlockId>, e: nat)
    requires Shape(s)
  {
    && OpOk(s, op) && GotLive(s.live, First(s), got, 0) && Distinct(got)
    && s.top == First(s) + |got| < Blocks(s.tk.tail + |op.xs|)
    && e < |s.entries| && s.entries[e].num == s.top && Valid(s.entries[e])
  }

  // ------------------------------------------------------------------------------------
  // Dequeuing threads

  // The claimed indices a thread has not dealt with.
  function Lo(r: Reader): nat { if r.Off? || r.ReaderCrash? then 0 else r.lo }

  function Hi(r: Reader): nat { if r.Off? || r.ReaderCrash? then 0 else r.hi }

  // Those below this index are moved out.
  function Moved(r: Reader): nat
  {
    match r
    case Move(_, _, _, _, _, i, _) => i
    case SetEmpty(_, _, _, _, _, end) => end
    case _ => Lo(r)
  }

  ghost predicate ClaimsOk(claim: seq<Claim>, t: nat, r: Reader)
  {
    Hi(r) <= |claim| && forall i :: Lo(r) <= i < Hi(r) ==> claim[i] == By(t)
  }

  ghost predicate At0(entries: seq<Entry>, h: Header, p: nat)
    requires HeaderShape(h, |entries|)
  { entries[h.index[Pos(h, p)]].num == p }

  // The blocks of the elements lo, ..., hi - 1 are where the header says.
  ghost predicate PathOk(entries: seq<Entry>, h: Header, lo: nat, hi: nat)
    requires HeaderShape(h, |entries|)
  {
    forall p :: lo < hi && lo / BLOCK_SIZE <= p <= (hi - 1) / BLOCK_SIZE ==> At0(entries, h, p)
  }

  ghost predicate InBlock(s: State, lo: nat, b: BlockId)
  {
    lo / BLOCK_SIZE in s.live && s.live[lo / BLOCK_SIZE] == b
  }

  // What is left of a claim after one block starts with the next one.
  predicate NextAligned(lo: nat, hi: nat) { 0 < lo && (lo == hi || lo % BLOCK_SIZE == 0) }

  ghost predicate ReaderOk(s: State, t: nat)
    requires Shape(s) && t < |s.readers|
  {
    var r := s.readers[t];
    ClaimsOk(s.claim, t, r) &&
    match r
    case Off => true
    case LoadIndex(lo, hi) => true
    case LoadIndexTail(lo, hi, h) => PathOk(s.entries, s.headers[h], lo, hi)
    case LoadTailKey(lo, hi, h, tl) =>
      PathOk(s.entries, s.headers[h], lo, hi) && Valid(s.entries[s.headers[h].index[tl]])
    case LoadValue(lo, hi, h, idx) =>
      PathOk(s.entries, s.headers[h], lo, hi) && idx == Pos(s.headers[h], lo / BLOCK_SIZE)
    case Move(lo, hi, h, idx, b, i, end) =>
      PathOk(s.entries, s.headers[h], lo, hi) && idx == Pos(s.headers[h], lo / BLOCK_SIZE)
      && InBlock(s, lo, b) && end == Min(hi, (lo / BLOCK_SIZE + 1) * BLOCK_SIZE)
    case SetEmpty(lo, hi, h, idx, b, end) =>
      PathOk(s.entries, s.headers[h], lo, hi) && idx == Pos(s.headers[h], lo / BLOCK_SIZE)
      && InBlock(s, lo, b) && end == Min(hi, (lo / BLOCK_SIZE + 1) * BLOCK_SIZE)
    case Unlink(lo, hi, h, idx, b) =>
      NextAligned(lo, hi) && PathOk(s.entries, s.headers[h], lo, hi)
      && idx == Pos(s.headers[h], (lo - 1) / BLOCK_SIZE)
      && At0(s.entries, s.headers[h], (lo - 1) / BLOCK_SIZE)
      && s.own[b] == Emptied((lo - 1) / BLOCK_SIZE, t)
    case Recycle(lo, hi, h, idx, b) =>
      NextAligned(lo, hi) && PathOk(s.entries, s.headers[h], lo, hi)
      && idx == Pos(s.headers[h], (lo - 1) / BLOCK_SIZE)
      && s.own[b] == Retiring(t)
    case ReaderCrash => false
  }

  // A claim names the thread that works on it.
  ghost predicate ClaimAttended(claim: seq<Claim>, readers: seq<Reader>, i: nat)
    requires i < |claim|
  {
    claim[i].By? ==> claim[i].t < |readers| && Lo(readers[claim[i].t]) <= i < Hi(readers[claim[i].t])
  }

  ghost predicate DeliveredOk(delivered: map<nat, Elem>, claim: seq<Claim>, readers: seq<Reader>, items: seq<Elem>,
                              i: nat)
    requires i < |claim|
  {
    && (i in delivered ==> i < |items| && delivered[i] == items[i])
    && (claim[i].By? ==> claim[i].t < |readers| && (i in delivered <==> i < Moved(readers[claim[i].t])))
    && (claim[i].Done? ==> i in delivered)
  }

  ghost predicate OwnAttended(own: seq<Owner>, prod: Producer, readers: seq<Reader>, b: BlockId)
    requires b < |own|
  {
    match own[b]
    case WithProducer => ProducerHas(prod, b)
    case Emptied(p, t) => t < |readers| && readers[t].Unlink? && readers[t].b == b
      && (readers[t].lo - 1) / BLOCK_SIZE == p
    case Retiring(t) => t < |readers| && readers[t].Recycle? && readers[t].b == b
    case _ => true
  }

  ghost predicate Pairing(tk: T.State, readers: seq<Reader>)
  {
    && |readers| == |tk.threads|
    && forall t :: 0 <= t < |readers| ==> readers[t].Off? || tk.threads[t].Idle?
  }

  // ------------------------------------------------------------------------------------
  // All of it

  ghost predicate IndexParts(entries: seq<Entry>, headers: seq<Header>, live: map<int, BlockId>,
                             top: int, frontier: int, base: int, inserting: int)
  {
    && Layout(entries, headers, frontier)
    && TailOk(entries, headers, top)
    && LiveOk(entries, live, frontier)
    && NullsOk(entries, live, inserting)
    && ValidsOk(entries, live, base)
    && NumbersOk(base, top, frontier, |entries|)
  }

  ghost predicate IndexInv(s: State)
  {
    IndexParts(s.entries, s.headers, s.live, s.top, s.frontier, First(s) - 1, Inserting(s))
  }

  ghost predicate AttendedOk(own: seq<Owner>, prod: Producer, readers: seq<Reader>)
  {
    forall b :: 0 <= b < |own| ==> OwnAttended(own, prod, readers, b)
  }

  ghost predicate BlockInv(s: State)
  {
    && OwnOk(s.own, s.live)
    && DataOk(s.blocks, s.live, s.items, s.claim)
    && CountsOk(s.blocks, s.own, s.claim)
    && BaseOk(s.tk.tail, s.live, Current(s))
    && AttendedOk(s.own, s.prod, s.readers)
  }

  ghost predicate ClaimParts(tk: T.State, items: seq<Elem>, claim: seq<Claim>, delivered: map<nat, Elem>,
                             readers: seq<Reader>)
  {
    && |items| == tk.tail && |claim| == tk.head
    && (forall i :: 0 <= i < |claim| ==> ClaimAttended(claim, readers, i))
    && (forall i :: 0 <= i < |claim| ==> DeliveredOk(delivered, claim, readers, items, i))
    && (forall i :: i in delivered ==> i < |claim|)
    && Pairing(tk, readers)
  }

  ghost predicate ClaimInv(s: State) { ClaimParts(s.tk, s.items, s.claim, s.delivered, s.readers) }

  ghost predicate ReadersInv(s: State)
    requires Shape(s)
  {
    forall t :: 0 <= t < |s.readers| ==> ReaderOk(s, t)
  }

  ghost predicate Inv(s: State)
  {
    && Shape(s) && T.Inv(s.tk)
    && IndexInv(s) && BlockInv(s) && ClaimInv(s)
    && ProducerOk(s) && ReadersInv(s)
  }
}
