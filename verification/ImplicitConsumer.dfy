/**
 The dequeuing threads' steps keep the invariant.
 */
module ImplicitConsumer {
  import opened Counting
  import opened Modular
  import opened ImplicitQueue
  import opened ImplicitInvariant
  import opened ImplicitProof
  import ImplicitProducer
  import opened ImplicitShape
  import T = Tickets

  // ------------------------------------------------------------------------------------
  // What every step of the dequeuing threads leaves to the producer

  ghost predicate SameKeys(before: seq<Entry>, after: seq<Entry>)
  {
    |after| == |before| && forall e :: 0 <= e < |before| ==> SameKey(before[e], after[e])
  }

  predicate SameKey(a: Entry, b: Entry) { a.key == b.key && a.num == b.num }

  // Only blocks that are done with leave the index.
  ghost predicate LiveShrinks(before: map<int, BlockId>, after: map<int, BlockId>, first: nat, claim: seq<Claim>)
  {
    && (forall p :: p in after ==> p in before && after[p] == before[p])
    && (forall p :: p in before ==> p in after || (0 <= p < first && AllDone(claim, p)))
  }

  ghost predicate ClaimsGrow(before: seq<Claim>, after: seq<Claim>)
  {
    |before| <= |after| && forall i :: 0 <= i < |before| ==> IsDone(before, i) ==> IsDone(after, i)
  }

  ghost predicate HeldKept(s: State, s': State)
  {
    && |s'.own| == |s.own| == |s.blocks| == |s'.blocks|
    && (forall b :: 0 <= b < |s.own| ==> s'.blocks[b].elems == s.blocks[b].elems)
    && (forall b :: 0 <= b < |s.own| ==> HeldBlock(s, s', b))
  }

  ghost predicate HeldBlock(s: State, s': State, b: nat)
    requires b < |s.own| == |s'.own| == |s.blocks| == |s'.blocks|
  {
    && (s.own[b] == WithProducer ==> s'.own[b] == WithProducer && s'.blocks[b] == s.blocks[b])
    && (s'.own[b] == WithProducer ==> s.own[b] == WithProducer)
  }

  ghost predicate Consumed(s: State, s': State)
  {
    && s'.prod == s.prod && s'.tk.tail == s.tk.tail && s'.headers == s.headers && s'.items == s.items
    && s'.top == s.top && s'.frontier == s.frontier && s'.tailBlock == s.tailBlock
    && SameKeys(s.entries, s'.entries)
    && LiveShrinks(s.live, s'.live, First(s), s'.claim)
    && ClaimsGrow(s.claim, s'.claim)
    && HeldKept(s, s')
  }

  lemma DoneGrows(before: seq<Claim>, after: seq<Claim>, p: nat)
    requires ClaimsGrow(before, after) && AllDone(before, p)
    ensures AllDone(after, p)
  {
    forall i | i in DoneIn(before, p) ensures i in DoneIn(after, p) {
      assert IsDone(before, i);
    }
    SubsetSize(DoneIn(before, p), DoneIn(after, p));
    SubsetSize(DoneIn(after, p), Range(BLOCK_SIZE * p, BLOCK_SIZE * p + BLOCK_SIZE));
  }

  // An element stays where it is until it is dealt with.
  lemma HoldsOrDone(s: State, s': State, i: nat, x: Elem)
    requires Consumed(s, s') && Holds(s.blocks, s.live, i, x)
    ensures IsDone(s'.claim, i) || Holds(s'.blocks, s'.live, i, x)
  {
    var p := i / BLOCK_SIZE;
    if p !in s'.live {
      FullMeansAll(s'.claim, p, i);
    }
  }

  // Elements not published yet are not dealt with.
  lemma StillHeld(s: State, s': State, i: nat, x: Elem)
    requires Consumed(s, s') && T.Inv(s'.tk) && ClaimInv(s') && i >= s.tk.tail
    requires Holds(s.blocks, s.live, i, x)
    ensures Holds(s'.blocks, s'.live, i, x)
  {
    T.ClaimsWithinTail(s'.tk);
    HoldsOrDone(s, s', i, x);
  }

  lemma OpFrame(s: State, s': State, op: Op)
    requires Consumed(s, s') && OpOk(s, op)
    ensures OpOk(s', op)
  {
    hide SameKeys, HeldKept;
    forall p | p in op.live0 ensures 0 <= p < First(s) && (KeptLive(s'.live, op.live0, p) || AllDone(s'.claim, p)) {
      if AllDone(s.claim, p) {
        DoneGrows(s.claim, s'.claim, p);
      } else {
        assert KeptLive(s.live, op.live0, p);
      }
    }
  }

  lemma GotFrame(s: State, s': State, got: seq<BlockId>, j: nat)
    requires Consumed(s, s') && GotLive(s.live, First(s), got, j)
    ensures GotLive(s'.live, First(s'), got, j)
  {
    hide SameKeys, HeldKept, ClaimsGrow;
  }

  lemma HeldFrame(s: State, s': State, got: seq<BlockId>, lo: nat, hi: nat)
    requires Consumed(s, s') && GotHeld(s.own, got, lo, hi)
    ensures GotHeld(s'.own, got, lo, hi)
  {
    hide SameKeys, LiveShrinks, ClaimsGrow;
    forall k | lo <= k < hi ensures got[k] < |s'.own| && s'.own[got[k]] == WithProducer {
      assert HeldBlock(s, s', got[k]);
    }
  }

  lemma WrittenFrame(s: State, s': State, xs: seq<Elem>, j: nat)
    requires Consumed(s, s') && T.Inv(s'.tk) && ClaimInv(s') && Written(s, xs, j)
    ensures Written(s', xs, j)
  {
    hide ClaimParts, T.Inv, SameKeys, LiveShrinks, ClaimsGrow, HeldKept, Holds;
    forall k | 0 <= k < j <= |xs| ensures Holds(s'.blocks, s'.live, s'.tk.tail + k, xs[k]) {
      StillHeld(s, s', s.tk.tail + k, xs[k]);
    }
  }

  lemma ProducerFrame(s: State, s': State)
    requires Inv(s) && Shape(s') && Consumed(s, s') && T.Inv(s'.tk) && ClaimInv(s')
    ensures ProducerOk(s')
  {
    hide ReadersShape, BlocksShape, EntriesShape, ReadersInv, BlockInv, IndexInv, ClaimParts, T.Inv;
    var p := s.prod;
    if !p.Rest? && !p.ProducerCrash? {
      OpFrame(s, s', p.op);
    }
    match p
    case Rest => GotFrame(s, s', [], 0);
    case Failed(op) => GotFrame(s, s', [], 0);
    case GiveBack(op, got, j) => GotFrame(s, s', [], 0); HeldFrame(s, s', got, j, |got|);
    case UndoValue(op, got, j) => GotFrame(s, s', got, j); HeldFrame(s, s', got, 0, j);
    case UndoTail(op, got, j) => GotFrame(s, s', got, j + 1); HeldFrame(s, s', got, 0, j + 1);
    case Fill(op, got, j) => GotFrame(s, s', got, 0); WrittenFrame(s, s', op.xs, j);
    case ResetEmpty(op, got, e, b) =>
      GotFrame(s, s', got, 0);
      assert HeldBlock(s, s', b);
      assert SameKey(s.entries[e], s'.entries[e]);
    case Install(op, got, e, b) =>
      GotFrame(s, s', got, 0);
      assert HeldBlock(s, s', b);
      assert SameKey(s.entries[e], s'.entries[e]);
    case Look(op, got) => GotFrame(s, s', got, 0);
    case Grow(op, got) =>
      GotFrame(s, s', got, 0);
      var e := Cur(s).index[Cur(s).tail];
      assert HeaderShape(Cur(s), |s.entries|);
      assert SameKey(s.entries[e], s'.entries[e]);
    case StoreKey(op, got, e) => GotFrame(s, s', got, 0); assert SameKey(s.entries[e], s'.entries[e]);
    case StoreTail(op, got, e) => GotFrame(s, s', got, 0); assert SameKey(s.entries[e], s'.entries[e]);
    case Requisition(op, got, e) => GotFrame(s, s', got, 0); assert SameKey(s.entries[e], s'.entries[e]);
    case RewindNew(op, got, e) => GotFrame(s, s', got, 0); assert SameKey(s.entries[e], s'.entries[e]);
    case NullNew(op, got, e) => GotFrame(s, s', got, 0); assert SameKey(s.entries[e], s'.entries[e]);
    case ProducerCrash =>
  }

  // Elements and the last block survive a step of the dequeuing threads.
  lemma DataFrame(s: State, s': State)
    requires Inv(s) && Consumed(s, s') && T.Inv(s'.tk) && ClaimInv(s')
    ensures DataOk(s'.blocks, s'.live, s'.items, s'.claim) && BaseOk(s'.tk.tail, s'.live, Current(s'))
  {
    hide Shape, IndexInv, ReadersInv, ProducerOk;
    forall i | 0 <= i < |s'.items| ensures IsDone(s'.claim, i) || Holds(s'.blocks, s'.live, i, s'.items[i]) {
      if !IsDone(s.claim, i) {
        HoldsOrDone(s, s', i, s.items[i]);
      } else {
        assert IsDone(s'.claim, i);
      }
    }
    if s.tk.tail % BLOCK_SIZE != 0 && s.tk.tail / BLOCK_SIZE !in s'.live {
      T.ClaimsWithinTail(s'.tk);
      FullMeansAll(s'.claim, s.tk.tail / BLOCK_SIZE, s.tk.tail);
    }
  }

  // ------------------------------------------------------------------------------------
  // Steps that only look at the index, or move one element out

  // Thread t goes on to r with the same claim, having moved out as much as before.
  lemma ClaimsKeptBySearch(s: State, t: nat, r: Reader)
    requires ClaimInv(s) && t < |s.readers| && !s.readers[t].Off? && !r.Off?
    requires Lo(r) == Lo(s.readers[t]) && Hi(r) == Hi(s.readers[t]) && Moved(r) == Moved(s.readers[t])
    ensures ClaimInv(s.(readers := s.readers[t := r]))
  {
    var rs := s.readers[t := r];
    forall i | 0 <= i < |s.claim|
      ensures ClaimAttended(s.claim, rs, i) && DeliveredOk(s.delivered, s.claim, rs, s.items, i)
    {
      assert ClaimAttended(s.claim, s.readers, i) && DeliveredOk(s.delivered, s.claim, s.readers, s.items, i);
    }
  }

  lemma ClaimsKeptByMove(s: State, t: nat, r: Reader, d: map<nat, Elem>)
    requires ClaimInv(s) && T.Inv(s.tk) && t < |s.readers| && s.readers[t].Move? && !r.Off?
    requires Lo(r) == Lo(s.readers[t]) && Hi(r) == Hi(s.readers[t]) && Moved(r) == Moved(s.readers[t]) + 1
    requires var i := s.readers[t].i;
      i < |s.items| && i < |s.claim| && s.claim[i] == By(t) && d == s.delivered[i := s.items[i]]
    ensures ClaimInv(s.(readers := s.readers[t := r], delivered := d))
  {
    var rs := s.readers[t := r];
    forall i | 0 <= i < |s.claim|
      ensures ClaimAttended(s.claim, rs, i) && DeliveredOk(d, s.claim, rs, s.items, i)
    {
      assert ClaimAttended(s.claim, s.readers, i) && DeliveredOk(s.delivered, s.claim, s.readers, s.items, i);
    }
  }

  lemma AttendedByOthers(s: State, r: Reader, t: nat)
    requires BlockInv(s) && t < |s.readers| && !s.readers[t].Unlink? && !s.readers[t].Recycle?
    ensures AttendedOk(s.own, s.prod, s.readers[t := r])
  {
    var rs := s.readers[t := r];
    forall b | 0 <= b < |s.own| ensures OwnAttended(s.own, s.prod, rs, b) {
      assert OwnAttended(s.own, s.prod, s.readers, b);
    }
  }

  lemma ReadersOkBut(s: State, s': State, t: nat)
    requires Inv(s) && Shape(s') && |s.readers| == |s'.readers| && (t < |s.readers| ==> ReaderOk(s', t))
    requires forall u :: 0 <= u < |s.readers| && u != t ==> s'.readers[u] == s.readers[u]
    requires HeadersExtend(s.headers, s'.headers) && EntriesExtend(s.entries, s'.entries, s.live)
    requires KeptFromOthers(s, s', t)
    ensures ReadersInv(s')
  {
    hide HeadersExtend, EntriesExtend, KeptFromOthers, ReaderOk, HeadersShape, BlocksShape, EntriesShape, ProducerShape;
    hide IndexInv, BlockInv, ClaimInv, T.Inv, ProducerOk;
    ReadersFrame(s, s', t);
  }

  lemma LookFrames(s: State, t: nat, r: Reader, d: map<nat, Elem>)
    requires Inv(s) && t < |s.readers|
    ensures var s' := s.(readers := s.readers[t := r], delivered := d);
      Consumed(s, s') && HeadersExtend(s.headers, s'.headers) && EntriesExtend(s.entries, s'.entries, s.live)
        && KeptFromOthers(s, s', t)
  {
    hide HeadersShape, ReadersShape, EntriesShape, IndexInv, BlockInv, ClaimInv, T.Inv, ProducerOk, ReadersInv;
  }

  lemma LookKeepsInv(s: State, t: nat, r: Reader, d: map<nat, Elem>)
    requires Inv(s) && t < |s.readers| && !s.readers[t].Unlink? && !s.readers[t].Recycle?
    requires var s' := s.(readers := s.readers[t := r], delivered := d); ClaimInv(s') && Shape(s') && ReaderOk(s', t)
    ensures Inv(s.(readers := s.readers[t := r], delivered := d))
  {
    hide Shape, Consumed, HeadersExtend, EntriesExtend, KeptFromOthers, ReaderOk, ReadersInv;
    hide IndexParts, OwnOk, DataOk, CountsOk, BaseOk, AttendedOk, ClaimParts, T.Inv, ProducerOk;
    var s' := s.(readers := s.readers[t := r], delivered := d);
    AttendedByOthers(s, r, t);
    LookFrames(s, t, r, d);
    ProducerFrame(s, s');
    ReadersOkBut(s, s', t);
  }

  // The newest index has every live block at its position.
  lemma NewestPath(s: State, u: nat)
    requires Inv(s) && u < |s.readers|
    ensures PathOk(s.entries, Cur(s), Lo(s.readers[u]), Hi(s.readers[u]))
  {
    hide ReadersShape, BlocksShape, EntriesShape, BlockInv, ClaimInv, T.Inv, ProducerOk;
    var lo, hi := Lo(s.readers[u]), Hi(s.readers[u]);
    assert ReaderOk(s, u);
    forall p | lo < hi && lo / BLOCK_SIZE <= p <= (hi - 1) / BLOCK_SIZE ensures At0(s.entries, Cur(s), p) {
      PathLive(s, u, p);
      NumberAtPos(s.entries, s.headers, s.frontier, p);
    }
  }

  lemma LoadIndexKeepsInv(s: State, t: nat)
    requires Inv(s) && Enabled(s, Read(t)) && s.readers[t].LoadIndex?
    ensures Inv(Next(s, Read(t)))
  {
    var r := s.readers[t];
    var r' := LoadIndexTail(r.lo, r.hi, |s.headers| - 1);
    ShapeKept(s, Read(t));
    NewestPath(s, t);
    ClaimsKeptBySearch(s, t, r');
    assert ReaderOk(s, t);
    hide HeadersShape, ReadersShape, BlocksShape, EntriesShape, IndexInv, BlockInv, ClaimParts, T.Inv, ProducerOk;
    hide ReadersInv, PathOk;
    LookKeepsInv(s, t, r', s.delivered);
  }

  // The entry at the tail of any index a thread holds has a key.
  lemma TailHasKey(s: State, u: nat, h: nat)
    requires Inv(s) && u < |s.readers| && Lo(s.readers[u]) < Hi(s.readers[u]) && h < |s.headers|
    ensures Valid(s.entries[s.headers[h].index[s.headers[h].tail]])
  {
    hide ReadersShape, BlocksShape, EntriesShape, BlockInv, ClaimInv, T.Inv, ProducerOk;
    if h < |s.headers| - 1 {
      assert OldTailOk(s.entries, s.headers[h]);
    } else {
      var c := Cur(s);
      assert ReaderOk(s, u);
      var p := Lo(s.readers[u]) / BLOCK_SIZE;
      PathLive(s, u, p);
      NumberAfterTail(s.entries, s.headers, s.frontier, s.top, 0);
      DivModUnique(c.tail + 0, c.capacity, 0, c.tail);
      var e := c.index[c.tail];
      assert EntryOk(s.entries[e], s.frontier, |s.entries|);
      CongWindow(s.entries[e].num, s.top, c.capacity, s.frontier - |s.entries|);
    }
  }

  lemma LoadIndexTailKeepsInv(s: State, t: nat)
    requires Inv(s) && Enabled(s, Read(t)) && s.readers[t].LoadIndexTail?
    ensures Inv(Next(s, Read(t)))
  {
    var r := s.readers[t];
    var r' := LoadTailKey(r.lo, r.hi, r.h, s.headers[r.h].tail);
    ShapeKept(s, Read(t));
    TailHasKey(s, t, r.h);
    ClaimsKeptBySearch(s, t, r');
    assert ReaderOk(s, t);
    hide HeadersShape, ReadersShape, BlocksShape, EntriesShape, IndexInv, BlockInv, ClaimParts, T.Inv, ProducerOk;
    hide ReadersInv, PathOk;
    LookKeepsInv(s, t, r', s.delivered);
  }

  // The position computed from the key at any position of an index is that of the block sought.
  lemma LocateFromKey(s: State, h: nat, tl: nat, p: nat)
    requires Shape(s) && IndexInv(s) && h < |s.headers| && tl < s.headers[h].capacity
    requires Valid(s.entries[s.headers[h].index[tl]])
    ensures Locate(s.headers[h], tl, s.entries[s.headers[h].index[tl]].key, p) == Pos(s.headers[h], p)
  {
    assert HeaderOk(s.headers[h], s.entries, |s.entries|);
    var e := s.headers[h].index[tl];
    assert EntryOk(s.entries[e], s.frontier, |s.entries|);
    LocateIsPos(s.headers[h], tl, s.entries[e].num, p);
  }

  lemma KeyInRange(s: State, t: nat)
    requires Shape(s) && t < |s.readers| && s.readers[t].LoadTailKey?
    ensures var r := s.readers[t];
      && r.h < |s.headers| && HeaderShape(s.headers[r.h], |s.entries|) && r.tl < s.headers[r.h].capacity
  {
    hide BlocksShape, EntriesShape, ProducerShape;
    assert ReaderShape(s.readers[t], s.headers, |s.blocks|);
  }

  lemma LoadTailKeyKeepsInv(s: State, t: nat)
    requires Inv(s) && Enabled(s, Read(t)) && s.readers[t].LoadTailKey?
    ensures Inv(Next(s, Read(t)))
  {
    hide HeadersShape, ReadersShape, BlocksShape, EntriesShape, IndexInv, BlockInv, ClaimParts, T.Inv, ProducerOk;
    hide PathOk;
    var r := s.readers[t];
    KeyInRange(s, t);
    var r' := LoadValue(r.lo, r.hi, r.h,
      Locate(s.headers[r.h], r.tl, s.entries[s.headers[r.h].index[r.tl]].key, r.lo / BLOCK_SIZE));
    ShapeKept(s, Read(t));
    assert ReaderOk(s, t);
    LocateFromKey(s, r.h, r.tl, r.lo / BLOCK_SIZE);
    ClaimsKeptBySearch(s, t, r');
    LookKeepsInv(s, t, r', s.delivered);
  }

  // The entry found is that of the element's block, and its value is the live block.
  lemma EntryFound(s: State, t: nat)
    requires Inv(s) && t < |s.readers| && s.readers[t].LoadValue?
    ensures var r := s.readers[t];
      var e := s.entries[s.headers[r.h].index[r.idx]];
      var p := r.lo / BLOCK_SIZE;
      p in s.live && e.value == Ref(s.live[p]) && e.key == BLOCK_SIZE * p
  {
    hide BlocksShape, EntriesShape, BlockInv, ClaimInv, T.Inv, ProducerOk, ProducerShape, NullsOk, ValidsOk, TailOk;
    var r := s.readers[t];
    assert ReaderOk(s, t) && ReaderShape(r, s.headers, |s.blocks|) && HeaderShape(s.headers[r.h], |s.entries|);
    var p := r.lo / BLOCK_SIZE;
    PathLive(s, t, p);
    assert At0(s.entries, s.headers[r.h], p);
    var e := s.headers[r.h].index[r.idx];
    assert LiveEntry(s.entries[e], s.live);
    assert EntryOk(s.entries[e], s.frontier, |s.entries|);
  }

  lemma MovingFromHere(s: State, t: nat, b: BlockId)
    requires Inv(s) && t < |s.readers| && s.readers[t].LoadValue?
    requires var p := s.readers[t].lo / BLOCK_SIZE; p in s.live && s.live[p] == b
    ensures var r := s.readers[t];
      var s' := s.(readers := s.readers[t := Move(r.lo, r.hi, r.h, r.idx, b, r.lo,
        Min(r.hi, (r.lo / BLOCK_SIZE + 1) * BLOCK_SIZE))]);
      Shape(s') ==> ReaderOk(s', t)
  {
    assert ReaderOk(s, t);
    hide HeadersShape, ReadersShape, BlocksShape, EntriesShape, IndexInv, BlockInv, ClaimInv, T.Inv, ProducerOk;
    hide ReadersInv, PathOk;
  }

  lemma LoadValueKeepsInv(s: State, t: nat)
    requires Inv(s) && Enabled(s, Read(t)) && s.readers[t].LoadValue?
    ensures Inv(Next(s, Read(t)))
  {
    ShapeKept(s, Read(t));
    EntryFound(s, t);
    var r' := Next(s, Read(t)).readers[t];
    MovingFromHere(s, t, r'.b);
    assert ReaderShape(s.readers[t], s.headers, |s.blocks|);
    ClaimsKeptBySearch(s, t, r');
    hide HeadersShape, ReadersShape, BlocksShape, EntriesShape, IndexInv, BlockInv, ClaimParts, T.Inv, ProducerOk;
    hide ReadersInv, ReaderOk;
    LookKeepsInv(s, t, r', s.delivered);
  }

  // The element about to be moved out is the one enqueued with that index, and is moved out only now.
  lemma ElementFound(s: State, t: nat)
    requires Inv(s) && t < |s.readers| && s.readers[t].Move?
    ensures var r := s.readers[t];
      r.i < |s.items| && r.i < |s.claim| && s.claim[r.i] == By(t) && r.i !in s.delivered
      && r.b < |s.blocks| && |s.blocks[r.b].elems| == BLOCK_SIZE
        && s.blocks[r.b].elems[r.i % BLOCK_SIZE] == s.items[r.i]
  {
    hide HeadersShape, BlocksShape, EntriesShape, IndexInv, ProducerOk;
    var r := s.readers[t];
    assert ReaderOk(s, t) && ReaderShape(r, s.headers, |s.blocks|);
    T.ClaimsWithinTail(s.tk);
    assert !IsDone(s.claim, r.i) && r.i / BLOCK_SIZE == r.lo / BLOCK_SIZE;
    assert Holds(s.blocks, s.live, r.i, s.items[r.i]);
    assert DeliveredOk(s.delivered, s.claim, s.readers, s.items, r.i);
  }

  lemma MoveKeepsInv(s: State, t: nat)
    requires Inv(s) && Enabled(s, Read(t)) && s.readers[t].Move?
    ensures Inv(Next(s, Read(t)))
  {
    var s' := Next(s, Read(t));
    ElementFound(s, t);
    ShapeKept(s, Read(t));
    assert ReaderOk(s, t);
    ClaimsKeptByMove(s, t, s'.readers[t], s'.delivered);
    hide HeadersShape, ReadersShape, BlocksShape, EntriesShape, IndexInv, BlockInv, ClaimParts, T.Inv, ProducerOk;
    hide ReadersInv, PathOk;
    LookKeepsInv(s, t, s'.readers[t], s'.delivered);
  }

  // ------------------------------------------------------------------------------------
  // Steps that change claims or owners

  lemma ConsumeKeepsInv(s: State, s': State, t: nat)
    requires Inv(s) && Shape(s') && T.Inv(s'.tk) && IndexInv(s') && ClaimInv(s')
    requires OwnOk(s'.own, s'.live) && CountsOk(s'.blocks, s'.own, s'.claim) && AttendedOk(s'.own, s'.prod, s'.readers)
    requires Consumed(s, s') && EntriesExtend(s.entries, s'.entries, s.live) && KeptFromOthers(s, s', t)
    requires |s.readers| == |s'.readers| && (t < |s.readers| ==> ReaderOk(s', t))
    requires forall u :: 0 <= u < |s.readers| && u != t ==> s'.readers[u] == s.readers[u]
    ensures Inv(s')
  {
    hide Shape, EntriesExtend, KeptFromOthers, ReaderOk, ReadersInv, SameKeys, LiveShrinks, ClaimsGrow, HeldKept;
    hide IndexParts, OwnOk, DataOk, CountsOk, BaseOk, AttendedOk, ClaimParts, T.Inv, ProducerOk;
    DataFrame(s, s');
    ProducerFrame(s, s');
    ReadersOkBut(s, s', t);
  }

  lemma DoneCounted(claim: seq<Claim>, lo: nat, end: nat, p: nat, t: nat)
    requires BLOCK_SIZE * p <= lo <= end <= BLOCK_SIZE * p + BLOCK_SIZE && end <= |claim|
    requires forall i :: lo <= i < end ==> claim[i] == By(t)
    ensures |DoneIn(SetDone(claim, lo, end), p)| == |DoneIn(claim, p)| + end - lo <= BLOCK_SIZE
    ensures forall q: nat :: q != p ==> DoneIn(SetDone(claim, lo, end), q) == DoneIn(claim, q)
  {
    var claim' := SetDone(claim, lo, end);
    UnionSize(DoneIn(claim, p), Range(lo, end));
    assert DoneIn(claim', p) == DoneIn(claim, p) + Range(lo, end);
    SubsetSize(DoneIn(claim', p), Range(BLOCK_SIZE * p, BLOCK_SIZE * p + BLOCK_SIZE));
    forall q: nat | q != p ensures DoneIn(claim', q) == DoneIn(claim, q) {
      forall i | i in DoneIn(claim', q) || i in DoneIn(claim, q) ensures claim'[i] == claim[i] {}
    }
  }

  // The block a thread works on is in use, and the thread's part of it ends within it.
  lemma WorkingBlock(s: State, t: nat)
    requires Inv(s) && t < |s.readers| && s.readers[t].SetEmpty?
    ensures var r := s.readers[t]; var p := r.lo / BLOCK_SIZE;
      && r.b < |s.own| && s.own[r.b] == InUse(p) && p in s.live && s.live[p] == r.b
      && r.lo < r.end <= r.hi <= |s.claim| && r.end <= BLOCK_SIZE * p + BLOCK_SIZE && (r.end - 1) / BLOCK_SIZE == p
      && (r.end == r.hi || r.end == BLOCK_SIZE * p + BLOCK_SIZE)
      && (forall i :: r.lo <= i < r.hi ==> s.claim[i] == By(t))
      && s.blocks[r.b].emptied + (r.end - r.lo) == |DoneIn(SetDone(s.claim, r.lo, r.end), p)| <= BLOCK_SIZE
  {
    hide HeadersShape, EntriesShape, IndexInv, ProducerOk;
    var r := s.readers[t];
    assert ReaderOk(s, t);
    assert ReaderShape(r, s.headers, |s.blocks|);
    OpenIsLive(s, r.lo);
    assert CountOk(s.blocks[r.b], s.own[r.b], s.claim);
    DoneCounted(s.claim, r.lo, r.end, r.lo / BLOCK_SIZE, t);
  }

  lemma SetEmptyBlocks(s: State, t: nat)
    requires Inv(s) && Enabled(s, Read(t)) && s.readers[t].SetEmpty?
    ensures var s' := Next(s, Read(t)); OwnOk(s'.own, s'.live) && AttendedOk(s'.own, s'.prod, s'.readers)
  {
    hide HeadersShape, EntriesShape, ReadersShape, IndexInv, ClaimInv, T.Inv, ProducerOk, ReadersInv, DataOk;
    hide CountsOk, BaseOk;
    WorkingBlock(s, t);
    var s' := Next(s, Read(t));
    forall b | 0 <= b < |s'.own|
      ensures Served(s'.own, s'.live, b) && OwnAttended(s'.own, s'.prod, s'.readers, b)
    {
      assert Served(s.own, s.live, b) && OwnAttended(s.own, s.prod, s.readers, b);
    }
    forall p | p in s'.live ensures s'.live[p] < |s'.own| && Serves(s'.own[s'.live[p]], p) {
      assert Serves(s.own[s.live[p]], p);
    }
  }

  lemma SetEmptyCounts(s: State, t: nat)
    requires Inv(s) && Enabled(s, Read(t)) && s.readers[t].SetEmpty?
    ensures var s' := Next(s, Read(t)); CountsOk(s'.blocks, s'.own, s'.claim)
  {
    hide HeadersShape, EntriesShape, ReadersShape, IndexInv, ClaimInv, T.Inv, ProducerOk, ReadersInv, DataOk;
    hide AttendedOk, BaseOk;
    WorkingBlock(s, t);
    var r := s.readers[t];
    DoneCounted(s.claim, r.lo, r.end, r.lo / BLOCK_SIZE, t);
    var s' := Next(s, Read(t));
    forall b | 0 <= b < |s'.own| ensures CountOk(s'.blocks[b], s'.own[b], s'.claim) {
      assert CountOk(s.blocks[b], s.own[b], s.claim) && Served(s.own, s.live, b);
    }
  }

  lemma SetEmptyClaims(s: State, t: nat)
    requires Inv(s) && Enabled(s, Read(t)) && s.readers[t].SetEmpty?
    ensures ClaimInv(Next(s, Read(t)))
  {
    hide HeadersShape, EntriesShape, ReadersShape, BlocksShape, IndexInv, BlockInv, T.Inv, ProducerOk, ReadersInv;
    WorkingBlock(s, t);
    var s' := Next(s, Read(t));
    forall i | 0 <= i < |s'.claim|
      ensures ClaimAttended(s'.claim, s'.readers, i) && DeliveredOk(s'.delivered, s'.claim, s'.readers, s'.items, i)
    {
      assert ClaimAttended(s.claim, s.readers, i) && DeliveredOk(s.delivered, s.claim, s.readers, s.items, i);
    }
  }

  // After one block the thread goes on, one position further, to the next one.
  lemma NextBlockOk(s: State, t: nat, lo: nat, hi: nat, h: nat, idx: nat)
    requires Shape(s) && t < |s.readers| && h < |s.headers| && NextAligned(lo, hi)
    requires s.readers[t] == NextBlock(lo, hi, h, idx, s.headers[h].capacity)
    requires PathOk(s.entries, s.headers[h], lo, hi) && idx == Pos(s.headers[h], (lo - 1) / BLOCK_SIZE)
    requires ClaimsOk(s.claim, t, s.readers[t])
    ensures ReaderOk(s, t)
  {
    NextPos(s.headers[h], (lo - 1) / BLOCK_SIZE);
    hide HeadersShape, EntriesShape, ReadersShape, BlocksShape, ProducerShape, PathOk;
  }

  lemma PathShrinks(entries: seq<Entry>, h: Header, lo: nat, end: nat, hi: nat)
    requires HeaderShape(h, |entries|) && lo < end <= hi && PathOk(entries, h, lo, hi)
    ensures PathOk(entries, h, end, hi) && At0(entries, h, lo / BLOCK_SIZE)
  {}

  // Thread t's state after the decrement, with the emptied block in hand or on its way to the next.
  lemma AfterSetEmpty(s: State, t: nat)
    requires Inv(s) && Enabled(s, Read(t)) && s.readers[t].SetEmpty?
    ensures var r := s.readers[t]; var s' := Next(s, Read(t));
      && s'.claim == SetDone(s.claim, r.lo, r.end) && s'.entries == s.entries && s'.headers == s.headers
      && |s'.readers| == |s.readers| && |s'.own| == |s.own|
      && ((s'.readers[t] == Unlink(r.end, r.hi, r.h, r.idx, r.b) && s'.own[r.b] == Emptied((r.end - 1) / BLOCK_SIZE, t))
          || s'.readers[t] == NextBlock(r.end, r.hi, r.h, r.idx, s.headers[r.h].capacity))
  {
    assert ReaderShape(s.readers[t], s.headers, |s.blocks|);
    hide HeadersShape, EntriesShape, ReadersShape, IndexInv, BlockInv, ClaimInv, T.Inv, ProducerOk, ReadersInv;
  }

  lemma RestIsClaimed(claim: seq<Claim>, t: nat, r: Reader, end: nat, r': Reader)
    requires ClaimsOk(claim, t, r) && Lo(r) <= end <= Hi(r)
    requires (Lo(r') == end && Hi(r') == Hi(r)) || Lo(r') == Hi(r') == 0
    ensures ClaimsOk(SetDone(claim, Lo(r), end), t, r')
  {}

  lemma EndsAligned(lo: nat, hi: nat, end: nat)
    requires lo < end <= hi && (end == hi || end == BLOCK_SIZE * (lo / BLOCK_SIZE) + BLOCK_SIZE)
    ensures NextAligned(end, hi)
  {}

  lemma WorkingPath(s: State, t: nat)
    requires Inv(s) && t < |s.readers| && s.readers[t].SetEmpty?
    ensures var r := s.readers[t];
      && r.lo < r.end <= r.hi && HeaderShape(s.headers[r.h], |s.entries|)
      && PathOk(s.entries, s.headers[r.h], r.lo, r.hi) && r.idx == Pos(s.headers[r.h], r.lo / BLOCK_SIZE)
        && ClaimsOk(s.claim, t, r)
  {
    var r := s.readers[t];
    assert ReaderOk(s, t);
    assert ReaderShape(r, s.headers, |s.blocks|) && HeaderShape(s.headers[r.h], |s.entries|);
    hide HeadersShape, EntriesShape, ReadersShape, BlocksShape, ProducerShape, IndexInv, BlockInv, ClaimInv, T.Inv;
    hide ProducerOk, ReadersInv, PathOk;
  }

  lemma ReaderInRange(s: State, t: nat)
    requires Shape(s) && t < |s.readers|
    ensures ReaderShape(s.readers[t], s.headers, |s.blocks|)
  {
    hide HeadersShape, BlocksShape, EntriesShape, ProducerShape;
  }

  lemma SetEmptyReader(s: State, t: nat)
    requires Inv(s) && Enabled(s, Read(t)) && s.readers[t].SetEmpty? && Shape(Next(s, Read(t)))
    ensures ReaderOk(Next(s, Read(t)), t)
  {
    hide ClaimsOk, SetDone, HeadersShape, EntriesShape, ReadersShape, BlocksShape, ProducerShape, IndexInv, BlockInv;
    hide ClaimInv, T.Inv, ProducerOk, PathOk, At0, NextAligned;
    var s' := Next(s, Read(t));
    var r := s.readers[t];
    ReaderInRange(s, t);
    WorkingBlock(s, t);
    EndsAligned(r.lo, r.hi, r.end);
    WorkingPath(s, t);
    PathShrinks(s.entries, s.headers[r.h], r.lo, r.end, r.hi);
    AfterSetEmpty(s, t);
    RestIsClaimed(s.claim, t, r, r.end, s'.readers[t]);
    if !s'.readers[t].Unlink? {
      NextBlockOk(s', t, r.end, r.hi, r.h, r.idx);
    }
  }

  lemma SetEmptyFrames(s: State, t: nat)
    requires Inv(s) && Enabled(s, Read(t)) && s.readers[t].SetEmpty?
    ensures var s' := Next(s, Read(t));
      Consumed(s, s') && EntriesExtend(s.entries, s'.entries, s.live) && KeptFromOthers(s, s', t)
  {
    hide HeadersShape, EntriesShape, ReadersShape, IndexInv, BlockInv, ClaimInv, T.Inv, ProducerOk, ReadersInv;
    WorkingBlock(s, t);
  }

  lemma SetEmptyKeepsInv(s: State, t: nat)
    requires Inv(s) && Enabled(s, Read(t)) && s.readers[t].SetEmpty?
    ensures Inv(Next(s, Read(t)))
  {
    hide HeadersShape, EntriesShape, ReadersShape, BlocksShape, IndexParts, BlockInv, ClaimParts, T.Inv, ProducerOk;
    hide ReadersInv;
    hide SameKeys, LiveShrinks, ClaimsGrow, HeldKept, EntriesExtend, KeptFromOthers, OwnOk, CountsOk, AttendedOk;
    hide ReaderOk;
    ShapeKept(s, Read(t));
    SetEmptyBlocks(s, t);
    SetEmptyCounts(s, t);
    SetEmptyClaims(s, t);
    SetEmptyReader(s, t);
    SetEmptyFrames(s, t);
    ConsumeKeepsInv(s, Next(s, Read(t)), t);
  }

  // The emptied block is still in the index, at the entry the thread holds.
  lemma EmptiedBlock(s: State, t: nat)
    requires Inv(s) && t < |s.readers| && s.readers[t].Unlink?
    ensures var r := s.readers[t]; var p := (r.lo - 1) / BLOCK_SIZE;
      && 0 <= p < First(s) && p in s.live && s.live[p] == r.b && r.b < |s.own| && s.own[r.b] == Emptied(p, t)
        && AllDone(s.claim, p)
      && s.headers[r.h].index[r.idx] < |s.entries| && s.entries[s.headers[r.h].index[r.idx]].num == p
  {
    hide EntriesShape, IndexInv, ProducerOk;
    var r := s.readers[t];
    assert ReaderOk(s, t) && ReaderShape(r, s.headers, |s.blocks|) && HeaderShape(s.headers[r.h], |s.entries|);
    assert Served(s.own, s.live, r.b) && CountOk(s.blocks[r.b], s.own[r.b], s.claim);
    var p := (r.lo - 1) / BLOCK_SIZE;
    T.ClaimsWithinTail(s.tk);
    FullMeansAll(s.claim, p, BLOCK_SIZE * p);
  }

  // What unlinking changes.
  lemma UnlinkStep(s: State, t: nat)
    requires Shape(s) && Enabled(s, Read(t)) && s.readers[t].Unlink?
    ensures var r := s.readers[t];
      && r.h < |s.headers| && r.idx < |s.headers[r.h].index| && r.b < |s.own| == |s.blocks| && r.lo > 0
      && var e := s.headers[r.h].index[r.idx];
        && e < |s.entries|
        && Next(s, Read(t)) == s.(entries := s.entries[e := s.entries[e].(value := Null)],
                                  live := s.live - {(r.lo - 1) / BLOCK_SIZE}, own := s.own[r.b := Retiring(t)],
                                  readers := s.readers[t := Recycle(r.lo, r.hi, r.h, r.idx, r.b)])
  {
    hide EntriesShape, ProducerShape;
    assert ReaderShape(s.readers[t], s.headers, |s.blocks|) && HeaderShape(s.headers[s.readers[t].h], |s.entries|);
  }

  lemma UnlinkIndexInv(s: State, t: nat)
    requires Inv(s) && Enabled(s, Read(t)) && s.readers[t].Unlink?
    ensures IndexInv(Next(s, Read(t)))
  {
    hide HeadersShape, EntriesShape, ReadersShape, BlocksShape, BlockInv, ClaimInv, T.Inv, ProducerOk, ReadersInv;
    hide TailOk;
    hide Next, HeaderOk;
    EmptiedBlock(s, t);
    UnlinkStep(s, t);
    var s' := Next(s, Read(t));
    var e := s.headers[s.readers[t].h].index[s.readers[t].idx];
    ImplicitProducer.ValueStoreLayout(s, e, Null);
    forall i | 0 <= i < |s'.entries|
      ensures LiveEntry(s'.entries[i], s'.live) && NullEntry(s'.entries[i], s'.live, Inserting(s))
    {
      assert LiveEntry(s.entries[i], s.live) && NullEntry(s.entries[i], s.live, Inserting(s));
      assert i != e ==> s.entries[i].num != s.entries[e].num;
    }
  }

  lemma UnlinkBlocks(s: State, t: nat)
    requires Inv(s) && Enabled(s, Read(t)) && s.readers[t].Unlink?
    ensures var s' := Next(s, Read(t));
      OwnOk(s'.own, s'.live) && AttendedOk(s'.own, s'.prod, s'.readers) && CountsOk(s'.blocks, s'.own, s'.claim)
  {
    hide HeadersShape, EntriesShape, ReadersShape, IndexInv, ClaimInv, T.Inv, ProducerOk, ReadersInv, DataOk, BaseOk;
    EmptiedBlock(s, t);
    var s' := Next(s, Read(t));
    forall b | 0 <= b < |s'.own|
      ensures Served(s'.own, s'.live, b) && OwnAttended(s'.own, s'.prod, s'.readers, b)
        && CountOk(s'.blocks[b], s'.own[b], s'.claim)
    {
      assert Served(s.own, s.live, b) && OwnAttended(s.own, s.prod, s.readers, b)
        && CountOk(s.blocks[b], s.own[b], s.claim);
    }
    forall p | p in s'.live ensures s'.live[p] < |s'.own| && Serves(s'.own[s'.live[p]], p) {
      assert Serves(s.own[s.live[p]], p);
    }
  }

  lemma UnlinkConsumes(s: State, t: nat)
    requires Inv(s) && Enabled(s, Read(t)) && s.readers[t].Unlink?
    ensures Consumed(s, Next(s, Read(t))) && EntriesExtend(s.entries, Next(s, Read(t)).entries, s.live)
  {
    hide HeadersShape, EntriesShape, ReadersShape, IndexInv, BlockInv, ClaimInv, T.Inv, ProducerOk, ReadersInv, Next;
    EmptiedBlock(s, t);
    UnlinkStep(s, t);
  }

  lemma UnlinkKeepsOthers(s: State, t: nat)
    requires Inv(s) && Enabled(s, Read(t)) && s.readers[t].Unlink?
    ensures KeptFromOthers(s, Next(s, Read(t)), t)
  {
    hide HeadersShape, EntriesShape, ReadersShape, IndexInv, BlockInv, ClaimInv, T.Inv, ProducerOk, ReadersInv, Next;
    EmptiedBlock(s, t);
    UnlinkStep(s, t);
  }

  lemma UnlinkReader(s: State, t: nat)
    requires Inv(s) && Enabled(s, Read(t)) && s.readers[t].Unlink? && Shape(Next(s, Read(t)))
    ensures ReaderOk(Next(s, Read(t)), t)
  {
    hide EntriesShape, ProducerShape, IndexInv, BlockInv, ClaimInv, T.Inv, ProducerOk, PathOk;
    var s' := Next(s, Read(t));
    var r := s.readers[t];
    assert ReaderOk(s, t) && ReaderShape(r, s.headers, |s.blocks|) && HeaderShape(s.headers[r.h], |s.entries|);
    SameNumbersPath(s.entries, s'.entries, s.headers[r.h], r.lo, r.hi);
    hide HeadersShape, ReadersShape, ReadersInv;
  }

  lemma SameNumbersPath(a: seq<Entry>, b: seq<Entry>, h: Header, lo: nat, hi: nat)
    requires HeaderShape(h, |a|) && PathOk(a, h, lo, hi) && |b| == |a|
    requires forall e :: 0 <= e < |a| ==> b[e].num == a[e].num
    ensures PathOk(b, h, lo, hi)
  {
    forall p | lo < hi && lo / BLOCK_SIZE <= p <= (hi - 1) / BLOCK_SIZE ensures At0(b, h, p) {
      assert At0(a, h, p);
    }
  }

  lemma UnlinkKeepsInv(s: State, t: nat)
    requires Inv(s) && Enabled(s, Read(t)) && s.readers[t].Unlink?
    ensures Inv(Next(s, Read(t)))
  {
    ShapeKept(s, Read(t));
    UnlinkIndexInv(s, t);
    UnlinkBlocks(s, t);
    UnlinkReader(s, t);
    UnlinkConsumes(s, t);
    UnlinkKeepsOthers(s, t);
    assert ReaderShape(s.readers[t], s.headers, |s.blocks|);
    ClaimsKeptBySearch(s, t, Next(s, Read(t)).readers[t]);
    hide HeadersShape, EntriesShape, ReadersShape, BlocksShape, IndexInv, BlockInv, ClaimParts, T.Inv, ProducerOk;
    hide ReadersInv;
    hide SameKeys, LiveShrinks, ClaimsGrow, HeldKept, EntriesExtend, KeptFromOthers, OwnOk, CountsOk, AttendedOk;
    hide ReaderOk;
    ConsumeKeepsInv(s, Next(s, Read(t)), t);
  }

  lemma RecycleBlocks(s: State, t: nat)
    requires Inv(s) && Enabled(s, Read(t)) && s.readers[t].Recycle?
    ensures var s' := Next(s, Read(t));
      OwnOk(s'.own, s'.live) && AttendedOk(s'.own, s'.prod, s'.readers) && CountsOk(s'.blocks, s'.own, s'.claim)
    ensures s.readers[t].b < |s.own| && s.own[s.readers[t].b] == Retiring(t)
  {
    assert ReaderOk(s, t) && ReaderShape(s.readers[t], s.headers, |s.blocks|);
    hide HeadersShape, EntriesShape, ReadersShape, IndexInv, ClaimInv, T.Inv, ProducerOk, ReadersInv, DataOk, BaseOk;
    hide PathOk;
    var s' := Next(s, Read(t));
    forall b | 0 <= b < |s'.own|
      ensures Served(s'.own, s'.live, b) && OwnAttended(s'.own, s'.prod, s'.readers, b)
        && CountOk(s'.blocks[b], s'.own[b], s'.claim)
    {
      assert Served(s.own, s.live, b) && OwnAttended(s.own, s.prod, s.readers, b)
        && CountOk(s.blocks[b], s.own[b], s.claim);
    }
    forall p | p in s'.live ensures s'.live[p] < |s'.own| && Serves(s'.own[s'.live[p]], p) {
      assert Serves(s.own[s.live[p]], p);
    }
  }

  lemma RecycleFrames(s: State, t: nat)
    requires Inv(s) && Enabled(s, Read(t)) && s.readers[t].Recycle?
    ensures var s' := Next(s, Read(t));
      Consumed(s, s') && EntriesExtend(s.entries, s'.entries, s.live) && KeptFromOthers(s, s', t)
  {
    hide HeadersShape, EntriesShape, ReadersShape, IndexInv, BlockInv, ClaimInv, T.Inv, ProducerOk, ReadersInv;
    RecycleBlocks(s, t);
  }

  lemma RecycleClaims(s: State, t: nat)
    requires Inv(s) && Enabled(s, Read(t)) && s.readers[t].Recycle?
    ensures ClaimInv(Next(s, Read(t))) && ClaimsOk(s.claim, t, Next(s, Read(t)).readers[t])
  {
    assert ReaderOk(s, t) && ReaderShape(s.readers[t], s.headers, |s.blocks|);
    hide HeadersShape, EntriesShape, ReadersShape, BlocksShape, IndexInv, BlockInv, T.Inv, ProducerOk, ReadersInv;
    hide PathOk;
    var s' := Next(s, Read(t));
    forall i | 0 <= i < |s'.claim|
      ensures ClaimAttended(s'.claim, s'.readers, i) && DeliveredOk(s'.delivered, s'.claim, s'.readers, s'.items, i)
    {
      assert ClaimAttended(s.claim, s.readers, i) && DeliveredOk(s.delivered, s.claim, s.readers, s.items, i);
    }
  }

  lemma RecycleReader(s: State, t: nat)
    requires Inv(s) && Enabled(s, Read(t)) && s.readers[t].Recycle? && Shape(Next(s, Read(t)))
    ensures ReaderOk(Next(s, Read(t)), t)
  {
    var s' := Next(s, Read(t));
    var r := s.readers[t];
    RecycleClaims(s, t);
    assert ReaderOk(s, t) && ReaderShape(r, s.headers, |s.blocks|);
    hide HeadersShape, EntriesShape, ReadersShape, BlocksShape, ProducerShape, IndexInv, BlockInv, ClaimInv, T.Inv;
    hide ProducerOk, ReadersInv, PathOk, NextAligned, ClaimsOk;
    NextBlockOk(s', t, r.lo, r.hi, r.h, r.idx);
  }

  lemma RecycleKeepsInv(s: State, t: nat)
    requires Inv(s) && Enabled(s, Read(t)) && s.readers[t].Recycle?
    ensures Inv(Next(s, Read(t)))
  {
    hide HeadersShape, EntriesShape, ReadersShape, BlocksShape, IndexParts, BlockInv, ClaimParts, T.Inv, ProducerOk;
    hide ReadersInv;
    hide SameKeys, LiveShrinks, ClaimsGrow, HeldKept, EntriesExtend, KeptFromOthers, OwnOk, CountsOk, AttendedOk;
    hide ReaderOk, ClaimsOk;
    ShapeKept(s, Read(t));
    RecycleBlocks(s, t);
    RecycleClaims(s, t);
    RecycleReader(s, t);
    RecycleFrames(s, t);
    ConsumeKeepsInv(s, Next(s, Read(t)), t);
  }

  lemma ReadKeepsInv(s: State, t: nat)
    requires Inv(s) && Enabled(s, Read(t))
    ensures Inv(Next(s, Read(t)))
  {
    match s.readers[t]
    case LoadIndex(_, _) => LoadIndexKeepsInv(s, t);
    case LoadIndexTail(_, _, _) => LoadIndexTailKeepsInv(s, t);
    case LoadTailKey(_, _, _, _) => LoadTailKeyKeepsInv(s, t);
    case LoadValue(_, _, _, _) => LoadValueKeepsInv(s, t);
    case Move(_, _, _, _, _, _, _) => MoveKeepsInv(s, t);
    case SetEmpty(_, _, _, _, _, _) => SetEmptyKeepsInv(s, t);
    case Unlink(_, _, _, _, _) => UnlinkKeepsInv(s, t);
    case Recycle(_, _, _, _, _) => RecycleKeepsInv(s, t);
  }

  // ------------------------------------------------------------------------------------
  // The ticket protocol, and other producers

  predicate Claims(s: State, a: T.Act) { a.Go? && a.t < |s.tk.threads| && s.tk.threads[a.t].ClaimHead? }

  lemma TicketParts(s: State, a: T.Act)
    requires Inv(s) && Enabled(s, Ticket(a))
    ensures var s' := Next(s, Ticket(a));
      T.Inv(s'.tk) && s'.tk.tail == s.tk.tail && |s'.tk.threads| == |s.tk.threads|
      && (Claims(s, a) ==>
            s.tk.threads[a.t].got >= 1 && s'.tk.head == s.tk.head + s.tk.threads[a.t].got
            && s'.tk.threads[a.t] == T.Idle)
      && (!Claims(s, a) ==> s'.tk.head == s.tk.head)
      && (forall u :: 0 <= u < |s.tk.threads| && s.tk.threads[u].Idle? && !s'.tk.threads[u].Idle? ==> s.readers[u].Off?)
      && (a.Go? ==> s.readers[a.t].Off?)
  {
    hide T.Inv, Shape, IndexInv, BlockInv, ReadersInv, ProducerOk;
    T.StepKeepsInv(s.tk, a);
    if Claims(s, a) {
      T.NextClaimExists(s.tk, a.t);
    }
  }

  lemma TicketClaims(s: State, a: T.Act)
    requires Inv(s) && Enabled(s, Ticket(a))
    ensures ClaimInv(Next(s, Ticket(a)))
  {
    hide T.Inv, T.Next, HeadersShape, EntriesShape, ReadersShape, BlocksShape, IndexInv, BlockInv, ProducerOk;
    hide ReadersInv;
    TicketParts(s, a);
    var s' := Next(s, Ticket(a));
    forall i | 0 <= i < |s'.claim|
      ensures ClaimAttended(s'.claim, s'.readers, i) && DeliveredOk(s'.delivered, s'.claim, s'.readers, s'.items, i)
    {
      if i < |s.claim| {
        assert ClaimAttended(s.claim, s.readers, i) && DeliveredOk(s.delivered, s.claim, s.readers, s.items, i);
      }
    }
  }

  lemma TicketBlocks(s: State, a: T.Act)
    requires Inv(s) && Enabled(s, Ticket(a))
    ensures var s' := Next(s, Ticket(a));
      OwnOk(s'.own, s'.live) && AttendedOk(s'.own, s'.prod, s'.readers) && CountsOk(s'.blocks, s'.own, s'.claim)
  {
    hide T.Inv, T.Next, HeadersShape, EntriesShape, ReadersShape, BlocksShape, IndexInv, ClaimInv, ProducerOk;
    hide ReadersInv, DataOk, BaseOk;
    TicketParts(s, a);
    var s' := Next(s, Ticket(a));
    forall p: nat ensures DoneIn(s'.claim, p) == DoneIn(s.claim, p) {}
    forall b | 0 <= b < |s'.own|
      ensures OwnAttended(s'.own, s'.prod, s'.readers, b) && CountOk(s'.blocks[b], s'.own[b], s'.claim)
    {
      assert OwnAttended(s.own, s.prod, s.readers, b) && CountOk(s.blocks[b], s.own[b], s.claim);
    }
  }

  lemma TicketFrames(s: State, a: T.Act, t: nat)
    requires Inv(s) && Enabled(s, Ticket(a))
    requires t == if Claims(s, a) then a.t else |s.readers|
    ensures var s' := Next(s, Ticket(a));
      Consumed(s, s') && EntriesExtend(s.entries, s'.entries, s.live) && KeptFromOthers(s, s', t)
      && IndexInv(s') && |s'.readers| == |s.readers|
        && (forall u :: 0 <= u < |s.readers| && u != t ==> s'.readers[u] == s.readers[u])
  {
    hide T.Inv, T.Next, HeadersShape, EntriesShape, ReadersShape, IndexParts, BlockInv, ClaimInv, ProducerOk;
    hide ReadersInv;
    TicketParts(s, a);
  }

  lemma TicketReader(s: State, a: T.Act)
    requires Inv(s) && Enabled(s, Ticket(a)) && Claims(s, a) && Shape(Next(s, Ticket(a)))
    ensures ReaderOk(Next(s, Ticket(a)), a.t)
  {
    hide T.Inv, T.Next, HeadersShape, EntriesShape, ReadersShape, BlocksShape, IndexInv, BlockInv, ProducerOk;
    hide ReadersInv;
    TicketParts(s, a);
  }

  lemma TicketKeepsInv(s: State, a: T.Act)
    requires Inv(s) && Enabled(s, Ticket(a))
    ensures Inv(Next(s, Ticket(a)))
  {
    var t := if Claims(s, a) then a.t else |s.readers|;
    ShapeKept(s, Ticket(a));
    TicketParts(s, a);
    TicketClaims(s, a);
    TicketBlocks(s, a);
    TicketFrames(s, a, t);
    if Claims(s, a) {
      TicketReader(s, a);
    }
    hide T.Inv, T.Next, TicketStep, Shape, IndexInv, BlockInv, ClaimInv, ProducerOk, ReadersInv, Consumed;
    hide EntriesExtend, KeptFromOthers, OwnOk, CountsOk, AttendedOk, ReaderOk, Inv;
    ConsumeKeepsInv(s, Next(s, Ticket(a)), t);
  }

  lemma OthersKeepInv(s: State, b: BlockId, o: Owner)
    requires Inv(s) && b < |s.own| && (s.own[b].Free? || s.own[b].Elsewhere?) && (o.Free? || o.Elsewhere?)
    ensures Inv(s.(own := s.own[b := o]))
  {
    var s' := s.(own := s.own[b := o]);
    assert Shape(s') && Consumed(s, s') && KeptFromOthers(s, s', |s.readers|)
      && EntriesExtend(s.entries, s'.entries, s.live) by {
      hide HeadersShape, ReadersShape, IndexInv, BlockInv, ClaimInv, T.Inv, ProducerOk, ReadersInv;
    }
    OthersBlocks(s, b, o);
    hide IndexParts, BlockInv, ClaimParts, T.Inv, ProducerOk, ReadersInv, Shape;
    hide SameKeys, LiveShrinks, ClaimsGrow, HeldKept, EntriesExtend, KeptFromOthers, OwnOk, CountsOk, AttendedOk;
    ConsumeKeepsInv(s, s', |s.readers|);
  }

  lemma OthersBlocks(s: State, b: BlockId, o: Owner)
    requires Inv(s) && b < |s.own| && (s.own[b].Free? || s.own[b].Elsewhere?) && (o.Free? || o.Elsewhere?)
    ensures var s' := s.(own := s.own[b := o]);
      OwnOk(s'.own, s'.live) && AttendedOk(s'.own, s'.prod, s'.readers) && CountsOk(s'.blocks, s'.own, s'.claim)
  {
    hide HeadersShape, EntriesShape, ReadersShape, IndexInv, ClaimInv, T.Inv, ProducerOk, ReadersInv, DataOk, BaseOk;
    var own' := s.own[b := o];
    forall d | 0 <= d < |own'|
      ensures Served(own', s.live, d) && OwnAttended(own', s.prod, s.readers, d)
        && CountOk(s.blocks[d], own'[d], s.claim)
    {
      assert Served(s.own, s.live, d) && OwnAttended(s.own, s.prod, s.readers, d)
        && CountOk(s.blocks[d], s.own[d], s.claim);
    }
    forall p | p in s.live ensures s.live[p] < |own'| && Serves(own'[s.live[p]], p) {
      assert Serves(s.own[s.live[p]], p);
    }
  }
}
