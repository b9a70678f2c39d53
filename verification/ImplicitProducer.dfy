/**
 The producing thread's steps keep the invariant.
 */
module ImplicitProducer {
  import opened Counting
  import opened Modular
  import opened ImplicitQueue
  import opened ImplicitInvariant
  import opened ImplicitProof
  import opened ImplicitShape
  import T = Tickets

  // A step that leaves headers, entries, blocks and claims to the dequeuing threads as they were.
  lemma ReadersUndisturbed(s: State, s': State)
    requires Inv(s) && Shape(s') && s'.readers == s.readers && s'.claim == s.claim
    requires HeadersExtend(s.headers, s'.headers) && EntriesExtend(s.entries, s'.entries, s.live)
    requires |s.own| <= |s'.own| && forall b :: 0 <= b < |s.own| ==> OwnKept(s.own[b], s'.own[b], |s.readers|)
    requires forall p :: p in s.live && p < First(s) ==> p in s'.live && s'.live[p] == s.live[p]
    ensures ReadersInv(s')
  {
    ReadersFrame(s, s', |s.readers|);
  }

  lemma NothingBeyondTail(s: State, p: nat)
    requires T.Inv(s.tk) && ClaimInv(s) && p >= First(s)
    ensures DoneIn(s.claim, p) == {}
  {
    T.ClaimsWithinTail(s.tk);
  }

  // Blocks the producer holds stay with it.
  lemma AttendedMoves(own: seq<Owner>, p: Producer, q: Producer, readers: seq<Reader>)
    requires AttendedOk(own, p, readers)
    requires forall b :: ProducerHas(p, b) ==> ProducerHas(q, b)
    ensures AttendedOk(own, q, readers)
  {
    forall b | 0 <= b < |own| ensures OwnAttended(own, q, readers, b) {
      assert OwnAttended(own, p, readers, b);
    }
  }

  // A step that only moves the producer on.
  lemma ProducerMovesOn(s: State, p: Producer)
    requires Inv(s) && ProducerShape(p, |s.entries|, |s.blocks|, s.tk.tail)
    requires p.Rest? || p.Failed? ==> SlotShape(s.tailBlock, |s.blocks|)
    requires Inserting(s.(prod := p)) == Inserting(s) && Current(s.(prod := p)) == Current(s)
    requires forall b :: ProducerHas(s.prod, b) ==> ProducerHas(p, b)
    requires ProducerOk(s.(prod := p))
    ensures Inv(s.(prod := p))
  {
    hide ReadersInv, IndexParts, ClaimParts, T.Inv, OwnOk, DataOk, CountsOk, BaseOk, AttendedOk;
    var s' := s.(prod := p);
    AttendedMoves(s.own, s.prod, p, s.readers);
    assert ReadersInv(s') by {
      hide IndexInv, BlockInv, ClaimInv, T.Inv, ProducerOk;
      ReadersUndisturbed(s, s');
    }
  }

  lemma EnqueueKeepsInv(s: State, xs: seq<Elem>)
    requires Inv(s) && Enabled(s, Enqueue(xs))
    ensures Inv(Next(s, Enqueue(xs)))
  {
    ProducerMovesOn(s, Next(s, Enqueue(xs)).prod);
  }

  // ------------------------------------------------------------------------------------
  // Looking for a place in the index

  lemma FullIndex(s: State)
    requires Inv(s) && s.prod.Look?
    requires var e := s.entries[Cur(s).index[At(Cur(s), 1)]]; Valid(e) && e.value != Null
    ensures s.top == s.frontier && Valid(s.entries[Cur(s).index[Cur(s).tail]])
  {
    var c := Cur(s);
    assert HeaderOk(c, s.entries, |s.entries|);
    var i := c.index[At(c, 1)];
    var e := s.entries[i];
    NumberOfNext(s);
    assert EntryOk(e, s.frontier, |s.entries|);
    assert NullEntry(e, s.live, -1);
    assert e.num in s.live;
    var k := c.index[c.tail];
    assert EntryOk(s.entries[k], s.frontier, |s.entries|);
    assert e.num <= s.entries[k].num;
  }

  lemma LookProducerOk(s: State, c: Choice)
    requires Inv(s) && s.prod.Look? && Enabled(s, Produce(c))
    ensures var p := Next(s, Produce(c)).prod;
      ProducerShape(p, |s.entries|, |s.blocks|, s.tk.tail) && ProducerOk(s.(prod := p))
  {
    hide ReadersInv, ClaimInv, T.Inv, TailOk, Layout, NumbersOk, ValidsOk;
    var s' := Next(s, Produce(c));
    var e := Cur(s).index[At(Cur(s), 1)];
    assert LiveEntry(s.entries[e], s.live);
    if s'.prod.Grow? {
      FullIndex(s);
    }
  }

  lemma LookKeepsInv(s: State, c: Choice)
    requires Inv(s) && s.prod.Look? && Enabled(s, Produce(c))
    ensures Inv(Next(s, Produce(c)))
  {
    LookProducerOk(s, c);
    hide Inv, ProducerOk, ProducerShape;
    ProducerMovesOn(s, Next(s, Produce(c)).prod);
  }

  // ------------------------------------------------------------------------------------
  // Putting a key and the tail in place

  lemma GotIsLive(live: map<int, BlockId>, first: nat, got: seq<BlockId>, n: int)
    requires GotLive(live, first, got, 0) && n < first + |got|
    ensures n < first || n in live
  {
  }

  // The number an index gives up is neither live nor still to be published.
  lemma GivenUpNumber(s: State)
    requires Inv(s) && s.prod.StoreKey?
    ensures s.top == s.frontier ==> s.entries[s.prod.e].num == s.top + 1 - |s.entries| <= First(s) - 1
    ensures s.top < s.frontier ==> s.entries[s.prod.e].num == s.top + 1
  {
    hide ReadersInv, ClaimInv, BlockInv, T.Inv, TailOk, ValidsOk, NullsOk;
    NumberOfNext(s);
    if s.top == s.frontier {
      GotIsLive(s.live, First(s), s.prod.got, s.entries[s.prod.e].num);
    }
  }

  lemma StoreKeyLive(s: State, c: Choice)
    requires Inv(s) && s.prod.StoreKey? && Enabled(s, Produce(c))
    ensures var s' := Next(s, Produce(c));
      LiveOk(s'.entries, s'.live, s'.frontier) && NullsOk(s'.entries, s'.live, Inserting(s'))
  {
    GivenUpNumber(s);
    hide HeadersShape, ReadersShape, BlocksShape, EntriesShape;
    hide ReadersInv, ClaimInv, BlockInv, T.Inv, TailOk, Layout, ValidsOk, OpOk, Distinct;
    var s' := Next(s, Produce(c));
    var e := s.prod.e;
    forall p | p in s'.live ensures s'.frontier - |s'.entries| < p <= s'.frontier {
      assert s.frontier - |s.entries| < p <= s.frontier;
      assert p != s.entries[e].num;
    }
    forall i | 0 <= i < |s'.entries|
      ensures LiveEntry(s'.entries[i], s'.live) && NullEntry(s'.entries[i], s'.live, Inserting(s'))
    {
      assert LiveEntry(s.entries[i], s.live) && NullEntry(s.entries[i], s.live, Inserting(s));
    }
  }

  lemma StoreKeyIndexInv(s: State, c: Choice)
    requires Inv(s) && s.prod.StoreKey? && Enabled(s, Produce(c))
    ensures IndexInv(Next(s, Produce(c)))
  {
    hide HeadersShape, ReadersShape, BlocksShape, EntriesShape, ReadersInv, ClaimInv, BlockInv, T.Inv;
    hide TailOk, Layout, LiveOk, NullsOk, OpOk, Distinct;
    GivenUpNumber(s);
    StoreKeyLayout(s, s.prod.e, First(s) + |s.prod.got|);
    StoreKeyLive(s, c);
  }

  lemma StoreKeyReaders(s: State, c: Choice)
    requires Inv(s) && s.prod.StoreKey? && Enabled(s, Produce(c)) && Shape(Next(s, Produce(c)))
    ensures ReadersInv(Next(s, Produce(c)))
  {
    hide HeadersShape, ReadersShape, BlocksShape, EntriesShape, IndexInv, BlockInv, ClaimInv, T.Inv;
    var s' := Next(s, Produce(c));
    assert EntryKept(s.entries[s.prod.e], s'.entries[s.prod.e], s.live);
    ReadersUndisturbed(s, s');
  }

  lemma StoreKeyKeepsInv(s: State, c: Choice)
    requires Inv(s) && s.prod.StoreKey? && Enabled(s, Produce(c))
    ensures Inv(Next(s, Produce(c)))
  {
    hide HeadersShape, ReadersShape, BlocksShape, EntriesShape, ReadersInv, IndexInv, ClaimParts, T.Inv;
    hide DataOk, CountsOk, OwnOk, BaseOk, AttendedOk, GotLive, Distinct;
    ShapeKept(s, Produce(c));
    StoreKeyIndexInv(s, c);
    StoreKeyReaders(s, c);
    AttendedMoves(s.own, s.prod, Next(s, Produce(c)).prod, s.readers);
    GivenUpNumber(s);
  }

  lemma StoreTailIndexInv(s: State, c: Choice)
    requires Inv(s) && s.prod.StoreTail? && Enabled(s, Produce(c))
    ensures IndexInv(Next(s, Produce(c)))
  {
    hide HeadersShape, ReadersShape, BlocksShape, EntriesShape, ReadersInv, ClaimParts, BlockInv, T.Inv;
    hide LiveOk, NullsOk, ValidsOk, TailOk;
    MovedTail(s.entries, s.headers, s.frontier, s.top, 1);
    assert EntryOk(s.entries[s.prod.e], s.frontier, |s.entries|);
  }

  // A store to the index tail disturbs no dequeuing thread.
  lemma TailReaders(s: State, c: Choice)
    requires Inv(s) && (s.prod.StoreTail? || s.prod.RewindNew? || s.prod.UndoTail?)
    requires Enabled(s, Produce(c)) && Shape(Next(s, Produce(c)))
    ensures ReadersInv(Next(s, Produce(c)))
  {
    hide HeadersShape, ReadersShape, BlocksShape, EntriesShape, IndexInv, BlockInv, ClaimInv, T.Inv, ProducerOk;
    ReadersUndisturbed(s, Next(s, Produce(c)));
  }

  lemma StoreTailKeepsInv(s: State, c: Choice)
    requires Inv(s) && s.prod.StoreTail? && Enabled(s, Produce(c))
    ensures Inv(Next(s, Produce(c)))
  {
    hide HeadersShape, ReadersShape, BlocksShape, EntriesShape, ReadersInv, IndexInv, ClaimParts, T.Inv;
    hide DataOk, CountsOk, OwnOk, BaseOk, AttendedOk;
    ShapeKept(s, Produce(c));
    StoreTailIndexInv(s, c);
    TailReaders(s, c);
    AttendedMoves(s.own, s.prod, Next(s, Produce(c)).prod, s.readers);
  }

  // ------------------------------------------------------------------------------------
  // A larger index

  lemma GrowLive(s: State, c: Choice)
    requires Inv(s) && s.prod.Grow? && Enabled(s, Produce(c)) && c.NewIndex?
    ensures var s' := Next(s, Produce(c));
      LiveOk(s'.entries, s'.live, s'.frontier) && NullsOk(s'.entries, s'.live, -1)
  {
    hide HeadersShape, ReadersShape, BlocksShape, EntriesShape, ReadersInv, ClaimParts, BlockInv, T.Inv;
    hide TailOk, ValidsOk, OpOk;
    var s' := Next(s, Produce(c));
    forall i | 0 <= i < |s'.entries|
      ensures LiveEntry(s'.entries[i], s'.live) && NullEntry(s'.entries[i], s'.live, -1)
    {
      if i < |s.entries| {
        assert LiveEntry(s.entries[i], s.live) && NullEntry(s.entries[i], s.live, -1);
      }
    }
  }

  lemma GrowTailOk(s: State, c: Choice)
    requires Inv(s) && s.prod.Grow? && Enabled(s, Produce(c)) && c.NewIndex?
    ensures var s' := Next(s, Produce(c));
      TailOk(s'.entries, s'.headers, s'.top) && GrownTail(s, s'.entries, s'.headers)
  {
    hide ReadersShape, BlocksShape, EntriesShape, ReadersInv, ClaimParts, BlockInv, T.Inv, IndexParts;
    hide TailOk, GrownTail, HeaderShape;
    ShapeKept(s, Produce(c));
    GrowTail(s, c.values);
  }

  lemma GrowValids(s: State, c: Choice)
    requires Inv(s) && s.prod.Grow? && Enabled(s, Produce(c)) && c.NewIndex?
    ensures var s' := Next(s, Produce(c)); ValidsOk(s'.entries, s'.live, First(s') - 1)
  {
    hide ReadersShape, BlocksShape, EntriesShape, ReadersInv, ClaimParts, BlockInv, T.Inv, OpOk;
    hide TailOk, NullsOk, HeaderOk, LiveEntry;
  }

  lemma GrowIndexInv(s: State, c: Choice)
    requires Inv(s) && s.prod.Grow? && Enabled(s, Produce(c)) && c.NewIndex?
    ensures IndexInv(Next(s, Produce(c)))
    ensures var s' := Next(s, Produce(c)); GrownTail(s, s'.entries, s'.headers)
  {
    hide ReadersShape, BlocksShape, EntriesShape, ReadersInv, ClaimParts, BlockInv, T.Inv, OpOk;
    hide TailOk, GrownTail, LiveOk, NullsOk, ValidsOk, EntryOk, HeaderOk;
    GrowLayout(s, c.values);
    GrowTailOk(s, c);
    GrowLive(s, c);
    GrowValids(s, c);
  }

  lemma GrowReaders(s: State, c: Choice)
    requires Inv(s) && s.prod.Grow? && Enabled(s, Produce(c)) && Shape(Next(s, Produce(c)))
    ensures ReadersInv(Next(s, Produce(c)))
  {
    hide HeadersShape, ReadersShape, BlocksShape, EntriesShape, IndexInv, BlockInv, ClaimInv, T.Inv, ProducerOk;
    ReadersUndisturbed(s, Next(s, Produce(c)));
  }

  lemma GrownProducer(s: State, c: Choice)
    requires Inv(s) && s.prod.Grow? && Enabled(s, Produce(c)) && Shape(Next(s, Produce(c))) && c.NewIndex?
    ensures ProducerOk(Next(s, Produce(c)))
  {
    hide ReadersShape, BlocksShape, EntriesShape, ReadersInv, ClaimParts, T.Inv, BlockInv;
    GrowIndexInv(s, c);
    NumbersInWindow(s);
    hide IndexInv, HeadersShape;
  }

  lemma GrowProducer(s: State, c: Choice)
    requires Inv(s) && s.prod.Grow? && Enabled(s, Produce(c)) && Shape(Next(s, Produce(c)))
    ensures ProducerOk(Next(s, Produce(c)))
  {
    hide HeadersShape, ReadersShape, BlocksShape, EntriesShape, ReadersInv, ClaimParts, T.Inv, BlockInv, IndexInv;
    if c.NewIndex? {
      GrownProducer(s, c);
    }
  }

  lemma GrowKeepsInv(s: State, c: Choice)
    requires Inv(s) && s.prod.Grow? && Enabled(s, Produce(c))
    ensures Inv(Next(s, Produce(c)))
  {
    hide HeadersShape, ReadersShape, BlocksShape, EntriesShape, ReadersInv, ClaimParts, T.Inv, ProducerOk;
    hide DataOk, CountsOk, OwnOk, BaseOk, AttendedOk, IndexParts, GrownTail;
    ShapeKept(s, Produce(c));
    GrowReaders(s, c);
    GrowProducer(s, c);
    if c.NewIndex? {
      GrowIndexInv(s, c);
    }
    AttendedMoves(s.own, s.prod, Next(s, Produce(c)).prod, s.readers);
  }

  lemma NumbersInWindow(s: State)
    requires IndexInv(s)
    ensures forall p :: p in s.live ==> s.frontier - |s.entries| < p <= s.frontier
    ensures s.top <= s.frontier
  {
  }

  // ------------------------------------------------------------------------------------
  // Getting a block

  lemma RequisitionProducer(s: State, c: Choice)
    requires Inv(s) && s.prod.Requisition? && Enabled(s, Produce(c)) && Shape(Next(s, Produce(c)))
    ensures ProducerOk(Next(s, Produce(c)))
  {
    hide HeadersShape, ReadersShape, EntriesShape, ReadersInv, ClaimParts, T.Inv, BlockInv, IndexInv;
  }

  lemma RequisitionKeepsInv(s: State, c: Choice)
    requires Inv(s) && s.prod.Requisition? && Enabled(s, Produce(c))
    ensures Inv(Next(s, Produce(c)))
  {
    hide HeadersShape, ReadersShape, BlocksShape, EntriesShape, ReadersInv, ClaimParts, T.Inv;
    hide BlockInv, IndexParts, ProducerOk;
    ShapeKept(s, Produce(c));
    RequisitionBlocks(s, c);
    RequisitionReaders(s, c);
    RequisitionProducer(s, c);
  }

  lemma RequisitionBlocks(s: State, c: Choice)
    requires Inv(s) && s.prod.Requisition? && Enabled(s, Produce(c))
    ensures BlockInv(Next(s, Produce(c)))
  {
    hide HeadersShape, ReadersShape, BlocksShape, EntriesShape, ReadersInv, ClaimParts, T.Inv, IndexParts, ProducerOk;
    var s' := Next(s, Produce(c));
    forall b | 0 <= b < |s'.own|
      ensures OwnAttended(s'.own, s'.prod, s'.readers, b) && Served(s'.own, s'.live, b)
      ensures CountOk(s'.blocks[b], s'.own[b], s'.claim)
    {
      if b < |s.own| {
        assert OwnAttended(s.own, s.prod, s.readers, b) && Served(s.own, s.live, b);
        assert CountOk(s.blocks[b], s.own[b], s.claim);
      }
    }
    forall i | 0 <= i < |s'.items| ensures IsDone(s'.claim, i) || Holds(s'.blocks, s'.live, i, s'.items[i]) {
      assert IsDone(s.claim, i) || Holds(s.blocks, s.live, i, s.items[i]);
    }
  }

  lemma RequisitionReaders(s: State, c: Choice)
    requires Inv(s) && s.prod.Requisition? && Enabled(s, Produce(c)) && Shape(Next(s, Produce(c)))
    ensures ReadersInv(Next(s, Produce(c)))
  {
    hide HeadersShape, ReadersShape, EntriesShape, IndexInv, BlockInv, ClaimInv, T.Inv, ProducerOk;
    ReadersUndisturbed(s, Next(s, Produce(c)));
  }

  lemma ResetEmptyReaders(s: State, c: Choice)
    requires Inv(s) && s.prod.ResetEmpty? && Enabled(s, Produce(c)) && Shape(Next(s, Produce(c)))
    ensures ReadersInv(Next(s, Produce(c)))
  {
    hide HeadersShape, ReadersShape, EntriesShape, IndexInv, BlockInv, ClaimInv, T.Inv, ProducerOk;
    ReadersUndisturbed(s, Next(s, Produce(c)));
  }

  lemma ResetEmptyKeepsInv(s: State, c: Choice)
    requires Inv(s) && s.prod.ResetEmpty? && Enabled(s, Produce(c))
    ensures Inv(Next(s, Produce(c)))
  {
    hide HeadersShape, ReadersShape, EntriesShape, ReadersInv, ClaimParts, T.Inv;
    hide BlockInv, IndexParts;
    ShapeKept(s, Produce(c));
    ResetEmptyBlocks(s, c);
    ResetEmptyReaders(s, c);
  }

  lemma ResetEmptyBlocks(s: State, c: Choice)
    requires Inv(s) && s.prod.ResetEmpty? && Enabled(s, Produce(c))
    ensures BlockInv(Next(s, Produce(c)))
  {
    hide HeadersShape, ReadersShape, EntriesShape, ReadersInv, ClaimParts, T.Inv, IndexParts;
    var s' := Next(s, Produce(c));
    AttendedMoves(s.own, s.prod, s'.prod, s.readers);
    forall b | 0 <= b < |s'.own| ensures CountOk(s'.blocks[b], s'.own[b], s'.claim) {
      assert CountOk(s.blocks[b], s.own[b], s.claim);
    }
    forall i | 0 <= i < |s'.items| ensures IsDone(s'.claim, i) || Holds(s'.blocks, s'.live, i, s'.items[i]) {
      assert IsDone(s.claim, i) || Holds(s.blocks, s.live, i, s.items[i]);
    }
  }

  // ------------------------------------------------------------------------------------
  // Publishing a block in the index

  lemma InstallIndexInv(s: State, c: Choice)
    requires Inv(s) && s.prod.Install? && Enabled(s, Produce(c))
    ensures IndexInv(Next(s, Produce(c)))
  {
    hide HeadersShape, ReadersShape, BlocksShape, EntriesShape, ReadersInv, ClaimParts, BlockInv, T.Inv, OpOk;
    var s' := Next(s, Produce(c));
    var e := s.prod.e;
    ValueStoreLayout(s, e, Ref(s.prod.b));
    hide TailOk;
    forall i | 0 <= i < |s'.entries|
      ensures LiveEntry(s'.entries[i], s'.live) && NullEntry(s'.entries[i], s'.live, -1)
    {
      assert LiveEntry(s.entries[i], s.live) && NullEntry(s.entries[i], s.live, Inserting(s));
      assert i != e ==> s.entries[i].num != s.entries[e].num;
    }
  }

  // Storing a value leaves keys and numbers alone.
  lemma ValueStoreLayout(s: State, e: nat, v: Slot)
    requires IndexInv(s) && e < |s.entries|
    ensures var es := s.entries[e := s.entries[e].(value := v)];
      Layout(es, s.headers, s.frontier) && TailOk(es, s.headers, s.top)
  {
    hide LiveOk, NullsOk, ValidsOk;
    var es := s.entries[e := s.entries[e].(value := v)];
    forall h | 0 <= h < |s.headers| ensures HeaderOk(s.headers[h], es, |es|) {
      assert HeaderOk(s.headers[h], s.entries, |s.entries|);
      forall i | 0 <= i < s.headers[h].capacity
        ensures Cong(es[s.headers[h].index[i]].num + s.headers[h].shift, i, s.headers[h].capacity)
      {
        assert es[s.headers[h].index[i]].num == s.entries[s.headers[h].index[i]].num;
      }
    }
    forall i | 0 <= i < |es| ensures EntryOk(es[i], s.frontier, |es|) {
      assert EntryOk(s.entries[i], s.frontier, |s.entries|);
    }
    forall h | 0 <= h < |s.headers| - 1 ensures OldTailOk(es, s.headers[h]) {
      assert OldTailOk(s.entries, s.headers[h]);
    }
  }

  lemma InstallBlocks(s: State, c: Choice)
    requires Inv(s) && s.prod.Install? && Enabled(s, Produce(c))
    ensures BlockInv(Next(s, Produce(c)))
  {
    hide HeadersShape, ReadersShape, EntriesShape, ReadersInv, IndexParts, OpOk;
    var s' := Next(s, Produce(c));
    NothingBeyondTail(s, First(s) + |s.prod.got|);
    hide ClaimParts, T.Inv;
    forall b | 0 <= b < |s'.own|
      ensures OwnAttended(s'.own, s'.prod, s'.readers, b) && Served(s'.own, s'.live, b)
      ensures CountOk(s'.blocks[b], s'.own[b], s'.claim)
    {
      assert OwnAttended(s.own, s.prod, s.readers, b) && Served(s.own, s.live, b);
      assert CountOk(s.blocks[b], s.own[b], s.claim);
    }
    forall i | 0 <= i < |s'.items| ensures IsDone(s'.claim, i) || Holds(s'.blocks, s'.live, i, s'.items[i]) {
      assert IsDone(s.claim, i) || Holds(s.blocks, s.live, i, s.items[i]);
    }
  }

  lemma InstallReaders(s: State, c: Choice)
    requires Inv(s) && s.prod.Install? && Enabled(s, Produce(c)) && Shape(Next(s, Produce(c)))
    ensures ReadersInv(Next(s, Produce(c)))
  {
    hide HeadersShape, ReadersShape, EntriesShape, IndexInv, BlockInv, ClaimInv, T.Inv;
    ReadersUndisturbed(s, Next(s, Produce(c)));
  }

  lemma GotExtends(own: seq<Owner>, live: map<int, BlockId>, first: nat, got: seq<BlockId>, b: BlockId)
    requires OwnOk(own, live) && GotLive(live, first, got, 0) && Distinct(got)
    requires b < |own| && own[b] == WithProducer
    ensures GotLive(live[first + |got| := b], first, got + [b], 0) && Distinct(got + [b])
  {
    forall k | 0 <= k < |got| ensures got[k] != b {
      assert first + k in live && live[first + k] == got[k];
      assert Serves(own[live[first + k]], first + k);
    }
  }

  lemma InstalledGot(s: State)
    requires Inv(s) && s.prod.Install?
    ensures var p, q := First(s) + |s.prod.got|, s.prod.got + [s.prod.b];
      GotLive(s.live[p := s.prod.b], First(s), q, 0) && Distinct(q)
  {
    hide HeadersShape, ReadersShape, EntriesShape, ReadersInv, ClaimParts, T.Inv, IndexInv, DataOk, CountsOk, BaseOk;
    hide AttendedOk, OwnOk;
    GotExtends(s.own, s.live, First(s), s.prod.got, s.prod.b);
  }

  lemma InstallProducer(s: State, c: Choice)
    requires Inv(s) && s.prod.Install? && Enabled(s, Produce(c)) && Shape(Next(s, Produce(c)))
    ensures ProducerOk(Next(s, Produce(c)))
  {
    hide HeadersShape, ReadersShape, BlocksShape, EntriesShape, ReadersInv, ClaimParts, T.Inv, BlockInv, IndexInv;
    hide GotLive, Distinct;
    InstalledGot(s);
  }

  lemma InstallKeepsInv(s: State, c: Choice)
    requires Inv(s) && s.prod.Install? && Enabled(s, Produce(c))
    ensures Inv(Next(s, Produce(c)))
  {
    hide HeadersShape, ReadersShape, BlocksShape, EntriesShape, ReadersInv, IndexInv, ClaimParts, T.Inv;
    hide BlockInv, ProducerOk;
    ShapeKept(s, Produce(c));
    InstallIndexInv(s, c);
    InstallBlocks(s, c);
    InstallReaders(s, c);
    InstallProducer(s, c);
  }

  // ------------------------------------------------------------------------------------
  // Taking back what a failed operation did

  // A store to the index tail, one place down.
  lemma TailDownIndexInv(s: State, c: Choice)
    requires Inv(s) && (s.prod.RewindNew? || s.prod.UndoTail?) && Enabled(s, Produce(c))
    ensures IndexInv(Next(s, Produce(c)))
  {
    hide HeadersShape, ReadersShape, BlocksShape, EntriesShape, ReadersInv, ClaimParts, BlockInv, T.Inv;
    hide LiveOk, NullsOk, ValidsOk, TailOk, OpOk;
    MovedTail(s.entries, s.headers, s.frontier, s.top, -1);
  }

  lemma TailDownKeepsInv(s: State, c: Choice)
    requires Inv(s) && (s.prod.RewindNew? || s.prod.UndoTail?) && Enabled(s, Produce(c))
    ensures Inv(Next(s, Produce(c)))
  {
    hide HeadersShape, ReadersShape, BlocksShape, EntriesShape, ReadersInv, IndexInv, ClaimParts, T.Inv;
    hide DataOk, CountsOk, OwnOk, BaseOk, AttendedOk, OpOk, GotLive, GotHeld, Distinct;
    ShapeKept(s, Produce(c));
    TailDownIndexInv(s, c);
    TailReaders(s, c);
    AttendedMoves(s.own, s.prod, Next(s, Produce(c)).prod, s.readers);
    TailDownOp(s, c);
  }

  lemma TailDownOp(s: State, c: Choice)
    requires Inv(s) && (s.prod.RewindNew? || s.prod.UndoTail?) && Enabled(s, Produce(c))
    ensures OpOk(Next(s, Produce(c)), s.prod.op)
  {
    hide HeadersShape, ReadersShape, EntriesShape, BlocksShape, ReadersInv, ClaimParts, T.Inv, BlockInv, IndexInv;
    hide GotLive, GotHeld, Distinct;
  }

  lemma NullNewIndexInv(s: State, c: Choice)
    requires Inv(s) && s.prod.NullNew? && Enabled(s, Produce(c))
    ensures IndexInv(Next(s, Produce(c))) && First(s) + |s.prod.got| <= s.frontier
  {
    hide HeadersShape, ReadersShape, BlocksShape, EntriesShape, ReadersInv, ClaimParts, BlockInv, T.Inv, OpOk;
    var s' := Next(s, Produce(c));
    var e := s.prod.e;
    ValueStoreLayout(s, e, Null);
    assert EntryOk(s.entries[e], s.frontier, |s.entries|);
    hide TailOk;
    forall i | 0 <= i < |s'.entries|
      ensures LiveEntry(s'.entries[i], s'.live) && NullEntry(s'.entries[i], s'.live, -1)
    {
      assert LiveEntry(s.entries[i], s.live) && NullEntry(s.entries[i], s.live, Inserting(s));
      assert i != e ==> s.entries[i].num != s.entries[e].num;
    }
  }

  lemma NullNewReaders(s: State, c: Choice)
    requires Inv(s) && s.prod.NullNew? && Enabled(s, Produce(c)) && Shape(Next(s, Produce(c)))
    ensures ReadersInv(Next(s, Produce(c)))
  {
    hide HeadersShape, ReadersShape, BlocksShape, IndexInv, BlockInv, ClaimInv, T.Inv;
    ReadersUndisturbed(s, Next(s, Produce(c)));
  }

  lemma NullNewKeepsInv(s: State, c: Choice)
    requires Inv(s) && s.prod.NullNew? && Enabled(s, Produce(c))
    ensures Inv(Next(s, Produce(c)))
  {
    hide HeadersShape, ReadersShape, BlocksShape, EntriesShape, ReadersInv, IndexInv, ClaimParts, T.Inv;
    hide DataOk, CountsOk, OwnOk, BaseOk, AttendedOk;
    ShapeKept(s, Produce(c));
    NullNewIndexInv(s, c);
    NullNewReaders(s, c);
    AttendedMoves(s.own, s.prod, Next(s, Produce(c)).prod, s.readers);
  }

  // The entry the undo loop looks up is that of the block it takes back.
  lemma UndoEntry(s: State)
    requires Inv(s) && s.prod.UndoValue? && s.prod.j < |s.prod.got|
    ensures var h := Cur(s);
      var p := First(s) + s.prod.j;
      var e := h.index[Locate(h, h.tail, s.entries[h.index[h.tail]].key, p)];
      s.entries[e].num == p && p in s.live && s.live[p] == s.prod.got[s.prod.j]
  {
    hide ReadersShape, BlocksShape, EntriesShape, ReadersInv, ClaimParts, BlockInv, T.Inv, OpOk;
    hide NullsOk, Distinct;
    var h := Cur(s);
    var p := First(s) + s.prod.j;
    var b := s.prod.got[s.prod.j];
    assert s.live[First(s) + s.prod.j] == b;
    assert HeaderOk(h, s.entries, |s.entries|);
    NumberAfterTail(s.entries, s.headers, s.frontier, s.top, 0);
    DivModUnique(h.tail + 0, h.capacity, 0, h.tail);
    var e := h.index[h.tail];
    assert EntryOk(s.entries[e], s.frontier, |s.entries|);
    CongWindow(s.entries[e].num, s.top, h.capacity, s.frontier - |s.entries|);
    LocateIsPos(h, h.tail, s.entries[e].num, p);
    NumberAtPos(s.entries, s.headers, s.frontier, p);
  }

  lemma UndoValueIndexInv(s: State, c: Choice)
    requires Inv(s) && s.prod.UndoValue? && s.prod.j < |s.prod.got| && Enabled(s, Produce(c))
    ensures IndexInv(Next(s, Produce(c)))
  {
    hide ReadersShape, BlocksShape, EntriesShape, ReadersInv, ClaimParts, BlockInv, T.Inv, ProducerOk, TailOk, HeaderOk;
    UndoEntry(s);
    var s' := Next(s, Produce(c));
    assert HeaderShape(Cur(s), |s.entries|);
    var e := Cur(s).index[Locate(Cur(s), Cur(s).tail, s.entries[Cur(s).index[Cur(s).tail]].key, First(s) + s.prod.j)];
    ValueStoreLayout(s, e, Null);
    forall i | 0 <= i < |s'.entries|
      ensures LiveEntry(s'.entries[i], s'.live) && NullEntry(s'.entries[i], s'.live, -1)
    {
      assert LiveEntry(s.entries[i], s.live) && NullEntry(s.entries[i], s.live, -1);
      assert i != e ==> s.entries[i].num != s.entries[e].num;
    }
  }

  // The block taken back is in use, and holds nothing published.
  lemma UndoneBlock(s: State)
    requires Inv(s) && s.prod.UndoValue? && s.prod.j < |s.prod.got|
    ensures s.own[s.prod.got[s.prod.j]] == InUse(First(s) + s.prod.j)
    ensures forall i :: 0 <= i < |s.items| ==> i / BLOCK_SIZE != First(s) + s.prod.j
  {
    hide HeadersShape, ReadersShape, EntriesShape, ReadersInv, IndexParts, OpOk, ProducerOk;
    UndoEntry(s);
    var p, b := First(s) + s.prod.j, s.prod.got[s.prod.j];
    NothingBeyondTail(s, p);
    assert Serves(s.own[b], p) && CountOk(s.blocks[b], s.own[b], s.claim);
  }

  lemma UndoValueData(s: State, c: Choice)
    requires Inv(s) && s.prod.UndoValue? && s.prod.j < |s.prod.got| && Enabled(s, Produce(c))
    ensures var s' := Next(s, Produce(c));
      DataOk(s'.blocks, s'.live, s'.items, s'.claim) && BaseOk(s'.tk.tail, s'.live, Current(s'))
  {
    hide HeadersShape, ReadersShape, EntriesShape, ReadersInv, IndexParts, OpOk, ClaimParts, T.Inv, ProducerOk, OwnOk;
    hide CountsOk, AttendedOk;
    UndoneBlock(s);
    var s' := Next(s, Produce(c));
    forall i | 0 <= i < |s'.items| ensures IsDone(s'.claim, i) || Holds(s'.blocks, s'.live, i, s'.items[i]) {
      assert IsDone(s.claim, i) || Holds(s.blocks, s.live, i, s.items[i]);
    }
  }

  lemma UndoValueOwn(s: State, c: Choice)
    requires Inv(s) && s.prod.UndoValue? && s.prod.j < |s.prod.got| && Enabled(s, Produce(c))
    ensures var s' := Next(s, Produce(c)); OwnOk(s'.own, s'.live)
  {
    hide HeadersShape, ReadersShape, EntriesShape, ReadersInv, IndexParts, ClaimParts, T.Inv, ProducerOk, DataOk;
    hide BaseOk, AttendedOk, CountsOk;
    UndoEntry(s);
    UndoneBlock(s);
    var s' := Next(s, Produce(c));
    forall d | 0 <= d < |s'.own| ensures Served(s'.own, s'.live, d) {
      assert Served(s.own, s.live, d);
    }
  }

  lemma UndoValueBlocks(s: State, c: Choice)
    requires Inv(s) && s.prod.UndoValue? && s.prod.j < |s.prod.got| && Enabled(s, Produce(c))
    ensures BlockInv(Next(s, Produce(c)))
  {
    hide HeadersShape, ReadersShape, EntriesShape, ReadersInv, IndexParts, ClaimParts, T.Inv, ProducerOk, DataOk;
    hide BaseOk, OwnOk;
    UndoneBlock(s);
    UndoValueData(s, c);
    UndoValueOwn(s, c);
    var s' := Next(s, Produce(c));
    forall d | 0 <= d < |s'.own|
      ensures OwnAttended(s'.own, s'.prod, s'.readers, d) && CountOk(s'.blocks[d], s'.own[d], s'.claim)
    {
      assert OwnAttended(s.own, s.prod, s.readers, d) && CountOk(s.blocks[d], s.own[d], s.claim);
    }
  }

  // What taking back a block leaves alone.
  lemma UndoValueStep(s: State, c: Choice)
    requires Shape(s) && s.prod.UndoValue? && s.prod.j < |s.prod.got| && Enabled(s, Produce(c))
    ensures var s' := Next(s, Produce(c)); var p, b := First(s) + s.prod.j, s.prod.got[s.prod.j];
      && s'.readers == s.readers && s'.claim == s.claim && s'.headers == s.headers
      && b < |s.own| && s'.own == s.own[b := WithProducer] && s'.live == s.live - {p}
      && EntriesExtend(s.entries, s'.entries, s.live)
  {
    hide HeadersShape, ReadersShape, EntriesShape;
    CurHasShape(s);
  }

  lemma UndoValueReaders(s: State, c: Choice)
    requires Inv(s) && s.prod.UndoValue? && s.prod.j < |s.prod.got| && Enabled(s, Produce(c))
    requires Shape(Next(s, Produce(c)))
    ensures ReadersInv(Next(s, Produce(c)))
  {
    hide Shape, IndexInv, BlockInv, ClaimInv, T.Inv, ReadersInv, ProducerOk, EntriesExtend, Next, Enabled;
    UndoneBlock(s);
    UndoValueStep(s, c);
    ReadersUndisturbed(s, Next(s, Produce(c)));
  }

  lemma GotShrinks(own: seq<Owner>, live: map<int, BlockId>, first: nat, got: seq<BlockId>, j: nat)
    requires GotLive(live, first, got, j) && Distinct(got) && GotHeld(own, got, 0, j)
    requires j < |got| && got[j] < |own|
    ensures GotLive(live - {first + j}, first, got, j + 1) && GotHeld(own[got[j] := WithProducer], got, 0, j + 1)
  {}

  lemma UndoValueOp(s: State, c: Choice)
    requires Inv(s) && s.prod.UndoValue? && s.prod.j < |s.prod.got| && Enabled(s, Produce(c))
    ensures OpOk(Next(s, Produce(c)), s.prod.op)
  {
    hide HeadersShape, ReadersShape, EntriesShape, BlocksShape, ReadersInv, ClaimParts, T.Inv, BlockInv, IndexInv;
    hide GotLive, GotHeld, Distinct;
  }

  lemma UndoValueProducer(s: State, c: Choice)
    requires Inv(s) && s.prod.UndoValue? && s.prod.j < |s.prod.got| && Enabled(s, Produce(c))
    requires Shape(Next(s, Produce(c)))
    ensures ProducerOk(Next(s, Produce(c)))
  {
    hide HeadersShape, ReadersShape, EntriesShape, ReadersInv, ClaimParts, T.Inv, BlockInv, IndexInv, GotLive;
    hide GotHeld, Distinct, OpOk;
    GotShrinks(s.own, s.live, First(s), s.prod.got, s.prod.j);
    UndoValueOp(s, c);
  }

  lemma UndoValueKeepsInv(s: State, c: Choice)
    requires Inv(s) && s.prod.UndoValue? && Enabled(s, Produce(c))
    ensures Inv(Next(s, Produce(c)))
  {
    if s.prod.j < |s.prod.got| {
      ShapeKept(s, Produce(c));
      UndoValueIndexInv(s, c);
      UndoValueBlocks(s, c);
      UndoValueReaders(s, c);
      UndoValueProducer(s, c);
      hide HeadersShape, ReadersShape, BlocksShape, EntriesShape, ReadersInv, IndexInv, ClaimParts, T.Inv;
      hide BlockInv, ProducerOk;
    } else {
      ShapeKept(s, Produce(c));
      ProducerMovesOn(s, Next(s, Produce(c)).prod);
    }
  }

  lemma GiveBackBlocks(s: State, c: Choice)
    requires Inv(s) && s.prod.GiveBack? && s.prod.j < |s.prod.got| && Enabled(s, Produce(c))
    ensures BlockInv(Next(s, Produce(c)))
  {
    hide HeadersShape, ReadersShape, EntriesShape, ReadersInv, IndexParts, ClaimParts, T.Inv, DataOk, BaseOk, OpOk;
    hide GotLive;
    var s' := Next(s, Produce(c));
    var b := s.prod.got[s.prod.j];
    assert s.own[b] == WithProducer;
    forall d | 0 <= d < |s'.own|
      ensures OwnAttended(s'.own, s'.prod, s'.readers, d) && Served(s'.own, s'.live, d)
      ensures CountOk(s'.blocks[d], s'.own[d], s'.claim)
    {
      assert OwnAttended(s.own, s.prod, s.readers, d) && Served(s.own, s.live, d);
      assert CountOk(s.blocks[d], s.own[d], s.claim);
    }
  }

  lemma GiveBackReaders(s: State, c: Choice)
    requires Inv(s) && s.prod.GiveBack? && Enabled(s, Produce(c)) && Shape(Next(s, Produce(c)))
    ensures ReadersInv(Next(s, Produce(c)))
  {
    hide HeadersShape, ReadersShape, EntriesShape, IndexInv, BlockInv, ClaimInv, T.Inv, OpOk, GotLive;
    ReadersUndisturbed(s, Next(s, Produce(c)));
  }

  lemma GiveBackProducer(s: State, c: Choice)
    requires Inv(s) && s.prod.GiveBack? && Enabled(s, Produce(c)) && Shape(Next(s, Produce(c)))
    ensures ProducerOk(Next(s, Produce(c)))
  {
    hide HeadersShape, ReadersShape, EntriesShape, ReadersInv, ClaimParts, T.Inv, BlockInv, IndexInv, GotLive;
  }

  lemma GiveBackKeepsInv(s: State, c: Choice)
    requires Inv(s) && s.prod.GiveBack? && Enabled(s, Produce(c))
    ensures Inv(Next(s, Produce(c)))
  {
    hide HeadersShape, ReadersShape, BlocksShape, EntriesShape, ReadersInv, IndexParts, ClaimParts, T.Inv;
    hide ProducerOk, AttendedOk, DataOk, CountsOk, OwnOk, BaseOk;
    ShapeKept(s, Produce(c));
    GiveBackReaders(s, c);
    GiveBackProducer(s, c);
    if s.prod.j < |s.prod.got| {
      GiveBackBlocks(s, c);
    } else {
      AttendedMoves(s.own, s.prod, Next(s, Produce(c)).prod, s.readers);
    }
  }

  lemma FailedKeepsInv(s: State, c: Choice)
    requires Inv(s) && s.prod.Failed? && Enabled(s, Produce(c))
    ensures Inv(Next(s, Produce(c)))
  {
    ProducerMovesOn(s, Next(s, Produce(c)).prod);
  }

  // ------------------------------------------------------------------------------------
  // Writing the elements and publishing them

  // The next element has a live block of its number to go to.
  lemma TargetIsLive(s: State)
    requires Inv(s) && s.prod.Fill? && s.prod.j < |s.prod.op.xs|
    ensures var p := (s.tk.tail + s.prod.j) / BLOCK_SIZE;
      p in s.live && Target(s.prod.op, s.prod.got, First(s), p) == Ref(s.live[p])
      && s.live[p] < |s.blocks| && Served(s.own, s.live, s.live[p]) && Serves(s.own[s.live[p]], p)
  {
    hide HeadersShape, ReadersShape, EntriesShape, ReadersInv, IndexParts, ClaimParts, T.Inv, DataOk, CountsOk;
    hide AttendedOk, OpOk;
    var p := (s.tk.tail + s.prod.j) / BLOCK_SIZE;
    if p < First(s) {
      assert s.tk.tail % BLOCK_SIZE != 0 && p == s.tk.tail / BLOCK_SIZE;
    }
  }

  // A write at the place of a later element leaves the others alone.
  lemma OthersHeld(s: State, c: Choice, i: nat, x: Elem)
    requires Inv(s) && s.prod.Fill? && s.prod.j < |s.prod.op.xs| && Enabled(s, Produce(c))
    requires i < s.tk.tail + s.prod.j && Holds(s.blocks, s.live, i, x)
    ensures Holds(Next(s, Produce(c)).blocks, s.live, i, x)
  {
    hide HeadersShape, ReadersShape, EntriesShape, ReadersInv, IndexParts, ClaimParts, T.Inv, DataOk, CountsOk;
    hide AttendedOk, OpOk, ProducerOk;
    TargetIsLive(s);
    var q := i / BLOCK_SIZE;
    assert Serves(s.own[s.live[q]], q);
  }

  lemma WriteBlocks(s: State, c: Choice)
    requires Inv(s) && s.prod.Fill? && s.prod.j < |s.prod.op.xs| && Enabled(s, Produce(c))
    ensures BlockInv(Next(s, Produce(c)))
  {
    TargetIsLive(s);
    var s' := Next(s, Produce(c));
    assert |s.items| == s.tk.tail;
    forall i | 0 <= i < |s'.items| ensures IsDone(s'.claim, i) || Holds(s'.blocks, s'.live, i, s'.items[i]) {
      assert IsDone(s.claim, i) || Holds(s.blocks, s.live, i, s.items[i]);
      if !IsDone(s.claim, i) {
        OthersHeld(s, c, i, s.items[i]);
      }
    }
    hide HeadersShape, ReadersShape, EntriesShape, ReadersInv, IndexParts, ClaimParts, T.Inv, ProducerOk, DataOk;
    AttendedMoves(s.own, s.prod, s'.prod, s.readers);
    forall b | 0 <= b < |s'.own| ensures CountOk(s'.blocks[b], s'.own[b], s'.claim) {
      assert CountOk(s.blocks[b], s.own[b], s.claim);
    }
  }

  lemma FillReaders(s: State, c: Choice)
    requires Inv(s) && s.prod.Fill? && Enabled(s, Produce(c)) && Shape(Next(s, Produce(c)))
    ensures ReadersInv(Next(s, Produce(c)))
  {
    hide HeadersShape, ReadersShape, EntriesShape, IndexInv, BlockInv, ClaimInv, T.Inv, ProducerOk;
    ReadersUndisturbed(s, Next(s, Produce(c)));
  }

  lemma WrittenHere(s: State, c: Choice)
    requires Inv(s) && s.prod.Fill? && s.prod.j < |s.prod.op.xs| && Enabled(s, Produce(c))
    ensures var s' := Next(s, Produce(c));
      Holds(s'.blocks, s.live, s.tk.tail + s.prod.j, s.prod.op.xs[s.prod.j]) && s'.live == s.live && s'.tk == s.tk
  {
    hide HeadersShape, ReadersShape, EntriesShape, ReadersInv, ClaimParts, T.Inv, BlockInv, IndexInv, OpOk, GotLive;
    hide Distinct;
    TargetIsLive(s);
  }

  lemma WrittenExtends(s: State, c: Choice)
    requires Inv(s) && s.prod.Fill? && s.prod.j < |s.prod.op.xs| && Enabled(s, Produce(c))
    ensures Written(Next(s, Produce(c)), s.prod.op.xs, s.prod.j + 1)
  {
    hide IndexInv, BlockInv, ClaimInv, ProducerOk, ReadersInv, T.Inv, ProduceStep, Shape, Holds;
    WrittenHere(s, c);
    var s' := Next(s, Produce(c));
    forall k | 0 <= k < s.prod.j ensures Holds(s'.blocks, s.live, s.tk.tail + k, s.prod.op.xs[k]) {
      WrittenBefore(s, k);
      OthersHeld(s, c, s.tk.tail + k, s.prod.op.xs[k]);
    }
  }

  lemma WrittenBefore(s: State, k: nat)
    requires Inv(s) && s.prod.Fill? && k < s.prod.j <= |s.prod.op.xs|
    ensures Holds(s.blocks, s.live, s.tk.tail + k, s.prod.op.xs[k])
  {
    hide HeadersShape, ReadersShape, EntriesShape, ReadersInv, ClaimParts, T.Inv, BlockInv, IndexInv, OpOk, GotLive;
    hide Distinct;
  }

  lemma WriteProducer(s: State, c: Choice)
    requires Inv(s) && s.prod.Fill? && s.prod.j < |s.prod.op.xs| && Enabled(s, Produce(c))
    requires Shape(Next(s, Produce(c)))
    ensures ProducerOk(Next(s, Produce(c)))
  {
    hide HeadersShape, ReadersShape, EntriesShape, ReadersInv, ClaimParts, T.Inv, BlockInv, IndexInv;
    hide Written, GotLive, Distinct;
    TargetIsLive(s);
    WrittenExtends(s, c);
  }

  lemma WriteKeepsInv(s: State, c: Choice)
    requires Inv(s) && s.prod.Fill? && s.prod.j < |s.prod.op.xs| && Enabled(s, Produce(c))
    ensures Inv(Next(s, Produce(c)))
  {
    hide HeadersShape, ReadersShape, BlocksShape, EntriesShape, ReadersInv, IndexParts, ClaimParts, T.Inv;
    hide BlockInv, ProducerOk;
    ShapeKept(s, Produce(c));
    TargetIsLive(s);
    WriteBlocks(s, c);
    FillReaders(s, c);
    WriteProducer(s, c);
  }

  lemma PublishIndexInv(s: State, c: Choice)
    requires Inv(s) && s.prod.Fill? && s.prod.j == |s.prod.op.xs| && Enabled(s, Produce(c))
    ensures var s' := Next(s, Produce(c)); IndexInv(s') && First(s') == First(s) + |s.prod.got| && Inserting(s') == -1
  {
    hide HeadersShape, ReadersShape, EntriesShape, BlocksShape, ReadersInv, ClaimParts, T.Inv, BlockInv;
    hide Layout, TailOk, LiveOk, NullsOk, OpOk, GotLive;
  }

  lemma PublishData(s: State, c: Choice)
    requires Inv(s) && s.prod.Fill? && s.prod.j == |s.prod.op.xs| && Enabled(s, Produce(c))
    ensures var s' := Next(s, Produce(c)); DataOk(s'.blocks, s'.live, s'.items, s'.claim)
  {
    hide HeadersShape, ReadersShape, EntriesShape, ReadersInv, IndexParts, T.Inv, CountsOk, OwnOk, AttendedOk, BaseOk;
    hide OpOk, GotLive, Distinct, Holds;
    var s' := Next(s, Produce(c));
    assert |s.items| == s.tk.tail;
    forall i | 0 <= i < |s'.items| ensures IsDone(s'.claim, i) || Holds(s'.blocks, s'.live, i, s'.items[i]) {
      if i < |s.items| {
        assert IsDone(s.claim, i) || Holds(s.blocks, s.live, i, s.items[i]);
      } else {
        assert Holds(s.blocks, s.live, s.tk.tail + (i - s.tk.tail), s.prod.op.xs[i - s.tk.tail]);
      }
    }
  }

  lemma PublishBlocks(s: State, c: Choice)
    requires Inv(s) && s.prod.Fill? && s.prod.j == |s.prod.op.xs| && Enabled(s, Produce(c))
    ensures BlockInv(Next(s, Produce(c)))
  {
    hide HeadersShape, ReadersShape, EntriesShape, ReadersInv, IndexParts, ClaimParts, T.Inv, CountsOk, OwnOk;
    hide AttendedOk, DataOk, OpOk, Written, Distinct;
    var s' := Next(s, Produce(c));
    PublishData(s, c);
    AttendedMoves(s.own, s.prod, s'.prod, s.readers);
    assert Blocks(s.tk.tail) + |s.prod.got| == Blocks(s'.tk.tail);
  }

  lemma PublishClaims(s: State, c: Choice)
    requires Inv(s) && s.prod.Fill? && s.prod.j == |s.prod.op.xs| && Enabled(s, Produce(c))
    ensures var s' := Next(s, Produce(c)); ClaimInv(s') && T.Inv(s'.tk)
  {
    hide HeadersShape, ReadersShape, EntriesShape, ReadersInv, IndexParts, BlockInv, ProducerOk, T.Inv;
    T.StepKeepsInv(s.tk, T.Publish(|s.prod.op.xs|));
    T.ClaimsWithinTail(s.tk);
    var s' := Next(s, Produce(c));
    forall i | 0 <= i < |s'.claim|
      ensures ClaimAttended(s'.claim, s'.readers, i) && DeliveredOk(s'.delivered, s'.claim, s'.readers, s'.items, i)
    {
      assert ClaimAttended(s.claim, s.readers, i) && DeliveredOk(s.delivered, s.claim, s.readers, s.items, i);
    }
  }

  lemma PublishKeepsInv(s: State, c: Choice)
    requires Inv(s) && s.prod.Fill? && s.prod.j == |s.prod.op.xs| && Enabled(s, Produce(c))
    ensures Inv(Next(s, Produce(c)))
  {
    hide HeadersShape, ReadersShape, BlocksShape, EntriesShape, ReadersInv, IndexParts, ClaimParts, T.Inv;
    hide BlockInv;
    ShapeKept(s, Produce(c));
    PublishIndexInv(s, c);
    PublishBlocks(s, c);
    PublishClaims(s, c);
    FillReaders(s, c);
  }

  lemma InvFill(s: State)
    requires Inv(s) && s.prod.Fill?
    ensures s.prod.j <= |s.prod.op.xs|
  {}


  lemma ProduceKeepsInv(s: State, c: Choice)
    requires Inv(s) && Enabled(s, Produce(c))
    ensures Inv(Next(s, Produce(c)))
  {
    hide Inv, Next;
    match s.prod
    case Look(_, _) => LookKeepsInv(s, c);
    case StoreKey(_, _, _) => StoreKeyKeepsInv(s, c);
    case StoreTail(_, _, _) => StoreTailKeepsInv(s, c);
    case Grow(_, _) => GrowKeepsInv(s, c);
    case Requisition(_, _, _) => RequisitionKeepsInv(s, c);
    case ResetEmpty(_, _, _, _) => ResetEmptyKeepsInv(s, c);
    case Install(_, _, _, _) => InstallKeepsInv(s, c);
    case RewindNew(_, _, _) => TailDownKeepsInv(s, c);
    case NullNew(_, _, _) => NullNewKeepsInv(s, c);
    case UndoValue(_, _, _) => UndoValueKeepsInv(s, c);
    case UndoTail(_, _, _) => TailDownKeepsInv(s, c);
    case GiveBack(_, _, _) => GiveBackKeepsInv(s, c);
    case Failed(_) => FailedKeepsInv(s, c);
    case Fill(op, _, j) =>
      InvFill(s);
      if j < |op.xs| { WriteKeepsInv(s, c); } else { PublishKeepsInv(s, c); }
  }
}
