/**
 What holds over every run of one implicit producer.
 */
module ImplicitTheorems {
  import opened Counting
  import opened ImplicitQueue
  import opened ImplicitInvariant
  import opened ImplicitProof
  import opened ImplicitProducer
  import opened ImplicitConsumer
  import T = Tickets

  lemma StepKeepsInv(s: State, a: Act)
    requires Inv(s) && Enabled(s, a)
    ensures Inv(Next(s, a))
  {
    hide Inv, ProduceStep, TicketStep, ReadStep;
    match a
    case Enqueue(xs) => EnqueueKeepsInv(s, xs);
    case Produce(c) => ProduceKeepsInv(s, c);
    case Ticket(ta) => TicketKeepsInv(s, ta);
    case Read(t) => ReadKeepsInv(s, t);
    case OthersTake(b) => OthersKeepInv(s, b, Elsewhere);
    case OthersReturn(b) => OthersKeepInv(s, b, Free);
  }

  lemma InitIndexInv(s: State)
    requires Init(s)
    ensures IndexInv(s)
  {
    var c := Cur(s);
    Modular.CongIntro(|s.entries|, 0, c.capacity, 1);
    forall i | 0 <= i < c.capacity ensures Modular.Cong(s.entries[c.index[i]].num + c.shift, i, c.capacity) {
      Modular.CongIntro(i - IMPLICIT_INITIAL_INDEX_SIZE, i, c.capacity, -1);
    }
    Modular.CongIntro(s.top + c.shift, c.tail, c.capacity, -1);
    assert HeaderOk(c, s.entries, |s.entries|);
    forall e | 0 <= e < |s.entries| ensures EntryOk(s.entries[e], s.frontier, |s.entries|) {}
  }

  lemma InitInv(s: State)
    requires Init(s)
    ensures Inv(s)
  {
    hide IndexInv, T.Inv;
    T.InitInv(s.tk);
    InitIndexInv(s);
    assert s.tk.tail == 0 && s.tk.head == 0;
  }

  ghost predicate StepsTo(s: State, a: Act, s': State) { Shape(s) && Enabled(s, a) && s' == Next(s, a) }

  // A run: any interleaving of any number of threads.
  ghost predicate Behaviour(ss: seq<State>, acts: seq<Act>)
  {
    && |ss| == |acts| + 1
    && Init(ss[0])
    && forall i :: 0 <= i < |acts| ==> StepsTo(ss[i], acts[i], ss[i + 1])
  }

  lemma {:induction false} AlwaysInv(ss: seq<State>, acts: seq<Act>, i: nat)
    requires Behaviour(ss, acts) && i < |ss|
    ensures Inv(ss[i])
  {
    hide Inv, Init, Next, Enabled;
    if i == 0 {
      InitInv(ss[0]);
    } else {
      AlwaysInv(ss, acts, i - 1);
      assert StepsTo(ss[i - 1], acts[i - 1], ss[i]);
      StepKeepsInv(ss[i - 1], acts[i - 1]);
    }
  }

  // ------------------------------------------------------------------------------------
  // Exactly once, in order

  // What never changes back: elements enqueued, elements moved out, block numbers done with.
  ghost predicate Progress(s: State, s': State)
  {
    && s.items <= s'.items
    && s.tk.tail <= s'.tk.tail
    && (forall i :: i in s.delivered ==> i in s'.delivered && s'.delivered[i] == s.delivered[i])
    && (forall p: int :: Retired(s, p) ==> Retired(s', p))
  }

  // A published block number that left the index.
  ghost predicate Retired(s: State, p: int) { p < First(s) && p !in s.live }

  lemma FillProgress(s: State, c: Choice)
    requires Inv(s) && Enabled(s, Produce(c)) && s.prod.Fill?
    ensures Progress(s, Next(s, Produce(c)))
  {
    hide HeadersShape, ReadersShape, BlocksShape, EntriesShape, IndexInv, BlockInv, ClaimInv, T.Inv, ReadersInv, OpOk;
    hide Written, Distinct;
  }

  // The part of an operation that inserts blocks.
  predicate Inserts(p: Producer)
  {
    p.Look? || p.StoreKey? || p.StoreTail? || p.Grow? || p.Requisition? || p.ResetEmpty? || p.Install?
  }

  // Nothing is published or moved out; only an unpublished number is added to the live ones.
  ghost predicate NothingPublished(s: State, s': State)
  {
    && s'.items == s.items && s'.tk == s.tk && s'.delivered == s.delivered
    && forall p :: p in s'.live ==> p in s.live || p >= First(s)
  }

  lemma InsertingPublishesNothing(s: State, c: Choice)
    requires Shape(s) && Enabled(s, Produce(c)) && Inserts(s.prod)
    ensures NothingPublished(s, Next(s, Produce(c)))
  {
    hide Shape, Enlarge, Locate, FreshEntries, SetTail, At, Cur, First;
  }

  lemma OthersPublishNothing(s: State, c: Choice)
    requires Shape(s) && Enabled(s, Produce(c)) && !Inserts(s.prod) && !s.prod.Fill?
    ensures NothingPublished(s, Next(s, Produce(c)))
  {
    hide Shape, Enlarge, Locate, FreshEntries, SetTail, At, Cur, First;
  }

  lemma OtherProgress(s: State, c: Choice)
    requires Inv(s) && Enabled(s, Produce(c)) && !s.prod.Fill?
    ensures Progress(s, Next(s, Produce(c)))
  {
    hide Shape, IndexInv, BlockInv, ClaimInv, T.Inv, ReadersInv, ProducerOk, Next;
    if Inserts(s.prod) {
      InsertingPublishesNothing(s, c);
    } else {
      OthersPublishNothing(s, c);
    }
  }

  lemma ProduceProgress(s: State, c: Choice)
    requires Inv(s) && Enabled(s, Produce(c))
    ensures Progress(s, Next(s, Produce(c)))
  {
    hide ProduceStep, Progress, IndexInv, BlockInv, ClaimInv, ReadersInv, ProducerOk, Shape;
    if s.prod.Fill? {
      FillProgress(s, c);
    } else {
      OtherProgress(s, c);
    }
  }

  lemma TicketProgress(s: State, a: T.Act)
    requires Inv(s) && Enabled(s, Ticket(a))
    ensures Progress(s, Next(s, Ticket(a)))
  {
    hide T.Next, Shape, IndexInv, BlockInv, ClaimInv, T.Inv, ProducerOk, ReadersInv;
    TicketParts(s, a);
  }

  lemma MoveProgress(s: State, t: nat)
    requires Inv(s) && Enabled(s, Read(t)) && s.readers[t].Move?
    ensures Progress(s, Next(s, Read(t)))
  {
    hide HeadersShape, BlocksShape, EntriesShape, ReadersShape, IndexInv, BlockInv, ClaimInv, T.Inv, ProducerOk;
    hide ReadersInv;
    ElementFound(s, t);
  }

  lemma ReadProgress(s: State, t: nat)
    requires Inv(s) && Enabled(s, Read(t))
    ensures Progress(s, Next(s, Read(t)))
  {
    hide HeadersShape, BlocksShape, EntriesShape, IndexInv, BlockInv, ClaimInv, T.Inv, ProducerOk, ReadersInv;
    if s.readers[t].Move? {
      MoveProgress(s, t);
      hide ReadStep, Progress;
    }
  }

  lemma StepProgress(s: State, a: Act)
    requires Inv(s) && Enabled(s, a)
    ensures Progress(s, Next(s, a))
  {
    match a
    case Produce(c) => ProduceProgress(s, c);
    case Ticket(ta) => TicketProgress(s, ta);
    case Read(t) => ReadProgress(s, t);
    case _ =>
  }

  lemma {:induction false} RunProgress(ss: seq<State>, acts: seq<Act>, i: nat, j: nat)
    requires Behaviour(ss, acts) && i <= j < |ss|
    ensures Progress(ss[i], ss[j])
    decreases j - i
  {
    hide Inv, Init, Next, Enabled;
    if i < j {
      AlwaysInv(ss, acts, i);
      assert StepsTo(ss[i], acts[i], ss[i + 1]);
      StepProgress(ss[i], acts[i]);
      RunProgress(ss, acts, i + 1, j);
    }
  }

  // What is moved out under index i is the i-th element enqueued, at that time and for ever.
  lemma DeliversInOrder(ss: seq<State>, acts: seq<Act>, k: nat, j: nat, i: nat)
    requires Behaviour(ss, acts) && k <= j < |ss| && i in ss[k].delivered
    ensures i < ss[k].tk.head <= ss[k].tk.tail && i < |ss[j].items| && ss[k].delivered[i] == ss[j].items[i]
  {
    AlwaysInv(ss, acts, k);
    RunProgress(ss, acts, k, j);
    T.ClaimsWithinTail(ss[k].tk);
    assert DeliveredOk(ss[k].delivered, ss[k].claim, ss[k].readers, ss[k].items, i);
  }

  ghost predicate MovesOut(s: State, a: Act, i: nat)
  {
    a.Read? && a.t < |s.readers| && s.readers[a.t].Move? && s.readers[a.t].i == i
  }

  // No element is moved out twice.
  lemma MovedOutOnce(ss: seq<State>, acts: seq<Act>, j: nat, k: nat, i: nat)
    requires Behaviour(ss, acts) && j < |acts| && k < |acts|
    requires MovesOut(ss[j], acts[j], i) && MovesOut(ss[k], acts[k], i)
    ensures j == k
  {
    if j < k {
      MovedOutEarlier(ss, acts, j, k, i);
    } else if k < j {
      MovedOutEarlier(ss, acts, k, j, i);
    }
  }

  lemma MovedOutEarlier(ss: seq<State>, acts: seq<Act>, j: nat, k: nat, i: nat)
    requires Behaviour(ss, acts) && j < k < |acts| && MovesOut(ss[j], acts[j], i)
    ensures !MovesOut(ss[k], acts[k], i)
  {
    AlwaysInv(ss, acts, k);
    assert StepsTo(ss[j], acts[j], ss[j + 1]);
    RunProgress(ss, acts, j + 1, k);
    assert i in ss[j + 1].delivered by {
      hide Inv, Behaviour, Progress, HeadersShape, BlocksShape, EntriesShape, ReadersShape;
    }
    if MovesOut(ss[k], acts[k], i) {
      ElementFound(ss[k], acts[k].t);
    }
  }

  // Until it is moved out, an element is in the live block of its number: nothing overwrites it.
  lemma UnreadIsStored(ss: seq<State>, acts: seq<Act>, k: nat, i: nat)
    requires Behaviour(ss, acts) && k < |ss| && i < |ss[k].items| && i !in ss[k].delivered
    ensures Holds(ss[k].blocks, ss[k].live, i, ss[k].items[i])
  {
    AlwaysInv(ss, acts, k);
    var s := ss[k];
    assert i < |s.claim| ==> DeliveredOk(s.delivered, s.claim, s.readers, s.items, i);
    assert IsDone(s.claim, i) || Holds(s.blocks, s.live, i, s.items[i]);
  }

  predicate NoDequeue(readers: seq<Reader>) { forall t :: 0 <= t < |readers| ==> readers[t].Off? }

  lemma ClaimedIsOut(s: State, i: nat)
    requires ClaimInv(s) && NoDequeue(s.readers) && i < s.tk.head
    ensures i in s.delivered && i < |s.items| && s.delivered[i] == s.items[i]
  {
    assert ClaimAttended(s.claim, s.readers, i) && DeliveredOk(s.delivered, s.claim, s.readers, s.items, i);
  }

  // With no dequeue under way the elements moved out are the first head ones.
  lemma AtRestAllClaimedAreOut(ss: seq<State>, acts: seq<Act>, k: nat, i: nat)
    requires Behaviour(ss, acts) && k < |ss| && NoDequeue(ss[k].readers)
    ensures i in ss[k].delivered <==> i < ss[k].tk.head
    ensures i < ss[k].tk.head ==> i < |ss[k].items| && ss[k].delivered[i] == ss[k].items[i]
  {
    AlwaysInv(ss, acts, k);
    if i < ss[k].tk.head {
      ClaimedIsOut(ss[k], i);
    }
  }

  // ------------------------------------------------------------------------------------
  // Finding blocks

  // Whatever index the thread loaded, and whatever happened to it since, the entry it reads
  // carries the block base sought and the live block.
  lemma LookupIsCorrect(ss: seq<State>, acts: seq<Act>, k: nat, t: nat)
    requires Behaviour(ss, acts) && k < |ss| && t < |ss[k].readers| && ss[k].readers[t].LoadValue?
    ensures var s, r := ss[k], ss[k].readers[t];
      var p := r.lo / BLOCK_SIZE;
      && r.h < |s.headers| && r.idx < |s.headers[r.h].index| && s.headers[r.h].index[r.idx] < |s.entries|
      && var e := s.entries[s.headers[r.h].index[r.idx]];
        p in s.live && e.value == Ref(s.live[p]) && e.key == BLOCK_SIZE * p
  {
    AlwaysInv(ss, acts, k);
    var s, r := ss[k], ss[k].readers[t];
    assert ReaderShape(r, s.headers, |s.blocks|) && HeaderShape(s.headers[r.h], |s.entries|) by {
      hide Behaviour, IndexInv, BlockInv, ClaimInv, T.Inv, ProducerOk, ReadersInv;
    }
    EntryFound(s, t);
  }

  // No thread ever finds an empty entry where it needs a block.
  lemma NobodyCrashes(ss: seq<State>, acts: seq<Act>, k: nat)
    requires Behaviour(ss, acts) && k < |ss|
    ensures !ss[k].prod.ProducerCrash?
    ensures forall t :: 0 <= t < |ss[k].readers| ==> !ss[k].readers[t].ReaderCrash?
  {
    hide Behaviour, Shape, IndexInv, BlockInv, ClaimInv, T.Inv;
    AlwaysInv(ss, acts, k);
    forall t | 0 <= t < |ss[k].readers| ensures !ss[k].readers[t].ReaderCrash? {
      assert ReaderOk(ss[k], t);
    }
  }

  // The test for a full sub-queue never succeeds: the head is behind the end of the next block.
  lemma SubQueueIsNeverFull(ss: seq<State>, acts: seq<Act>, k: nat)
    requires Behaviour(ss, acts) && k < |ss| && ss[k].prod.Look?
    ensures ss[k].tk.head < BLOCK_SIZE * (First(ss[k]) + |ss[k].prod.got|) + BLOCK_SIZE
  {
    AlwaysInv(ss, acts, k);
    T.ClaimsWithinTail(ss[k].tk);
  }

  // ------------------------------------------------------------------------------------
  // Recycling

  ghost predicate Unlinks(s: State, a: Act, p: nat)
  {
    a.Read? && a.t < |s.readers| && s.readers[a.t].Unlink? && s.readers[a.t].lo >= 1
      && (s.readers[a.t].lo - 1) / BLOCK_SIZE == p
  }

  // A block leaves the index only after all 32 elements in it were moved out ...
  lemma UnlinkedAfterAllMoved(ss: seq<State>, acts: seq<Act>, k: nat, p: nat)
    requires Behaviour(ss, acts) && k < |acts| && Unlinks(ss[k], acts[k], p)
    ensures p in ss[k].live && ss[k].live[p] == ss[k].readers[acts[k].t].b
    ensures forall i :: BLOCK_SIZE * p <= i < BLOCK_SIZE * p + BLOCK_SIZE ==> i in ss[k].delivered
    ensures Retired(ss[k + 1], p)
  {
    hide Init, Inv, Next, Shape;
    AlwaysInv(ss, acts, k);
    var s := ss[k];
    EmptiedBlock(s, acts[k].t);
    DeliveryIsOk(s);
    forall i | BLOCK_SIZE * p <= i < BLOCK_SIZE * p + BLOCK_SIZE ensures i in s.delivered {
      FullMeansAll(s.claim, p, i);
      assert DeliveredOk(s.delivered, s.claim, s.readers, s.items, i);
    }
    assert StepsTo(s, acts[k], ss[k + 1]);
    UnlinkStep(s, acts[k].t);
  }

  lemma DeliveryIsOk(s: State)
    requires Inv(s)
    ensures forall i :: 0 <= i < |s.claim| ==> DeliveredOk(s.delivered, s.claim, s.readers, s.items, i)
  {}

  // ... and it does so once.
  lemma UnlinkedOnce(ss: seq<State>, acts: seq<Act>, j: nat, k: nat, p: nat)
    requires Behaviour(ss, acts) && j < |acts| && k < |acts|
    requires Unlinks(ss[j], acts[j], p) && Unlinks(ss[k], acts[k], p)
    ensures j == k
  {
    hide StepsTo, Init, Unlinks;
    UnlinkedAfterAllMoved(ss, acts, j, p);
    UnlinkedAfterAllMoved(ss, acts, k, p);
    if j < k {
      RunProgress(ss, acts, j + 1, k);
    } else if k < j {
      RunProgress(ss, acts, k + 1, j);
    }
  }

  predicate HandsBack(r: Reader, b: BlockId) { (r.Unlink? || r.Recycle?) && r.b == b }

  // One thread at a time hands a block back, and nobody else can have or take it meanwhile.
  lemma HandedBackByOne(ss: seq<State>, acts: seq<Act>, k: nat, t: nat, u: nat, b: BlockId)
    requires Behaviour(ss, acts) && k < |ss| && t < |ss[k].readers| && u < |ss[k].readers|
    requires HandsBack(ss[k].readers[t], b) && HandsBack(ss[k].readers[u], b)
    ensures t == u && b < |ss[k].own| && !ss[k].own[b].Free? && ss[k].own[b] != WithProducer
      && ss[k].own[b] != Elsewhere
  {
    hide Behaviour, IndexInv, BlockInv, ClaimInv, T.Inv, ProducerOk;
    AlwaysInv(ss, acts, k);
    var s := ss[k];
    assert ReaderOk(s, t) && ReaderOk(s, u);
    assert ReaderShape(s.readers[t], s.headers, |s.blocks|);
  }

  ghost predicate Quiescent(s: State)
  {
    s.prod.Rest? && NoDequeue(s.readers)
  }

  // At rest the blocks held are those of the published numbers not emptied yet, one for each.
  lemma NothingIsLeaked(ss: seq<State>, acts: seq<Act>, k: nat)
    requires Behaviour(ss, acts) && k < |ss| && Quiescent(ss[k])
    ensures forall p :: p in ss[k].live <==> 0 <= p < First(ss[k]) && !AllDone(ss[k].claim, p)
    ensures forall b :: 0 <= b < |ss[k].own| ==>
      ss[k].own[b].Free? || ss[k].own[b].Elsewhere?
        || (ss[k].own[b].InUse? && ss[k].own[b].p in ss[k].live && ss[k].live[ss[k].own[b].p] == b)
  {
    hide Behaviour, Shape, IndexInv, ReadersInv;
    AlwaysInv(ss, acts, k);
    var s := ss[k];
    forall b | 0 <= b < |s.own|
      ensures s.own[b].Free? || s.own[b].Elsewhere?
        || (s.own[b].InUse? && s.own[b].p in s.live && s.live[s.own[b].p] == b)
    {
      assert OwnAttended(s.own, s.prod, s.readers, b) && Served(s.own, s.live, b);
    }
    forall p | p in s.live ensures 0 <= p < First(s) && !AllDone(s.claim, p) {
      assert Serves(s.own[s.live[p]], p) && CountOk(s.blocks[s.live[p]], s.own[s.live[p]], s.claim);
    }
    forall p | 0 <= p < First(s) && !AllDone(s.claim, p) ensures p in s.live {
      UnfinishedIsLive(s, p);
    }
  }

  lemma SomeUnfinished(claim: seq<Claim>, p: nat) returns (i: nat)
    requires !AllDone(claim, p)
    ensures BLOCK_SIZE * p <= i < BLOCK_SIZE * p + BLOCK_SIZE && !IsDone(claim, i)
  {
    var r := Range(BLOCK_SIZE * p, BLOCK_SIZE * p + BLOCK_SIZE);
    assert DoneIn(claim, p) <= r && DoneIn(claim, p) != r;
    i :| i in r && i !in DoneIn(claim, p);
  }

  lemma UnfinishedIsLive(s: State, p: nat)
    requires BlockInv(s) && ClaimInv(s) && p < First(s) && !AllDone(s.claim, p)
    ensures p in s.live
  {
    var i := SomeUnfinished(s.claim, p);
    assert |s.items| == s.tk.tail;
    hide AllDone, OwnOk, CountsOk, AttendedOk, ClaimParts;
    if i < |s.items| {
      assert Holds(s.blocks, s.live, i, s.items[i]);
    } else {
      assert s.tk.tail / BLOCK_SIZE == p && s.tk.tail % BLOCK_SIZE != 0;
    }
  }

  // ------------------------------------------------------------------------------------
  // An enqueue appends all of its elements or leaves everything as it was

  predicate InOp(p: Producer) { !p.Rest? && !p.ProducerCrash? }

  predicate Appended(s: State, s': State) { s.prod.Fill? && s'.prod.Rest? && s'.items == s.items + s.prod.op.xs }

  predicate GaveUp(s: State, s': State) { s.prod.Failed? && s'.prod.Rest? && s'.items == s.items }

  lemma OpStep(s: State, a: Act)
    requires Inv(s) && Enabled(s, a) && InOp(s.prod)
    ensures var s' := Next(s, a);
      (InOp(s'.prod) && s'.prod.op == s.prod.op && s'.items == s.items) || Appended(s, s') || GaveUp(s, s')
  {
    match a
    case Produce(c) => OpProduceStep(s, c);
    case Ticket(ta) =>
    case Read(t) => OpReadStep(s, t);
    case OthersTake(b) =>
    case OthersReturn(b) =>
  }

  lemma InsertingKeepsOp(s: State, c: Choice)
    requires Shape(s) && Enabled(s, Produce(c)) && Inserts(s.prod)
    ensures var s' := Next(s, Produce(c));
      s'.prod.ProducerCrash? || (InOp(s'.prod) && s'.prod.op == s.prod.op && s'.items == s.items)
  {
    hide Shape, Enlarge, Locate, FreshEntries, SetTail, At, First, Blocks, Cur;
  }

  lemma UndoingKeepsOp(s: State, c: Choice)
    requires Shape(s) && Enabled(s, Produce(c)) && !Inserts(s.prod) && !s.prod.Fill? && !s.prod.Failed?
    ensures var s' := Next(s, Produce(c)); InOp(s'.prod) && s'.prod.op == s.prod.op && s'.items == s.items
  {
    hide Shape, Enlarge, Locate, FreshEntries, SetTail, At, First, Blocks, Cur;
  }

  lemma OpKept(s: State, c: Choice)
    requires Shape(s) && Enabled(s, Produce(c)) && !s.prod.Fill? && !s.prod.Failed?
    ensures var s' := Next(s, Produce(c));
      s'.prod.ProducerCrash? || (InOp(s'.prod) && s'.prod.op == s.prod.op && s'.items == s.items)
  {
    hide Next, Shape;
    if Inserts(s.prod) {
      InsertingKeepsOp(s, c);
    } else {
      UndoingKeepsOp(s, c);
    }
  }

  lemma OpLastSteps(s: State, c: Choice)
    requires Shape(s) && Enabled(s, Produce(c)) && (s.prod.Fill? || s.prod.Failed?)
    ensures var s' := Next(s, Produce(c));
      s'.prod.ProducerCrash? || (InOp(s'.prod) && s'.prod.op == s.prod.op && s'.items == s.items) || Appended(s, s')
        || GaveUp(s, s')
  {
    hide HeadersShape, ReadersShape, BlocksShape, EntriesShape;
  }

  lemma OpProduceStep(s: State, c: Choice)
    requires Inv(s) && Enabled(s, Produce(c)) && InOp(s.prod)
    ensures var s' := Next(s, Produce(c));
      (InOp(s'.prod) && s'.prod.op == s.prod.op && s'.items == s.items) || Appended(s, s') || GaveUp(s, s')
  {
    hide ProduceStep, Shape, IndexInv, BlockInv, ClaimInv, ReadersInv, OpOk, GotLive, Distinct, Written;
    ProduceKeepsInv(s, c);
    if s.prod.Fill? || s.prod.Failed? {
      OpLastSteps(s, c);
    } else {
      OpKept(s, c);
    }
  }

  lemma OpReadStep(s: State, t: nat)
    requires Inv(s) && Enabled(s, Read(t))
    ensures var s' := Next(s, Read(t)); s'.prod == s.prod && s'.items == s.items
  {
    hide HeadersShape, BlocksShape, EntriesShape, IndexInv, BlockInv, ClaimInv, T.Inv, ProducerOk, ReadersInv;
  }

  // Steps i + 1, ..., j belong to the enqueue that begins with step i.
  ghost predicate During(ss: seq<State>, acts: seq<Act>, i: nat, j: nat)
  {
    && Behaviour(ss, acts) && i < j < |ss| && acts[i].Enqueue?
    && forall k :: i < k < j ==> !ss[k].prod.Rest?
  }

  function Entry0(s: State, xs: seq<Elem>): Op { Op(xs, s.tailBlock, s.top, s.live, s.tk.tail) }

  lemma {:induction false} OpRuns(ss: seq<State>, acts: seq<Act>, i: nat, j: nat)
    requires During(ss, acts, i, j)
    ensures !ss[j].prod.Rest? ==>
      InOp(ss[j].prod) && ss[j].prod.op == Entry0(ss[i], acts[i].xs) && ss[j].items == ss[i].items
    decreases j
  {
    hide Init, Inv;
    AlwaysInv(ss, acts, j);
    NobodyCrashes(ss, acts, j);
    AlwaysInv(ss, acts, j - 1);
    assert StepsTo(ss[j - 1], acts[j - 1], ss[j]);
    if j > i + 1 {
      OpRuns(ss, acts, i, j - 1);
      hide Next, Enabled;
      OpStep(ss[j - 1], acts[j - 1]);
    }
  }

  lemma EnqueueBegins(ss: seq<State>, acts: seq<Act>, i: nat)
    requires Behaviour(ss, acts) && i < |acts| && acts[i].Enqueue?
    ensures ss[i].prod.Rest? && ss[i + 1].prod.Look?
  {
    assert StepsTo(ss[i], acts[i], ss[i + 1]);
  }

  lemma OpEnds(s: State, a: Act)
    requires Inv(s) && Enabled(s, a) && InOp(s.prod) && Next(s, a).prod.Rest?
    ensures Next(s, a).items == s.items + s.prod.op.xs || (Next(s, a).items == s.items && s.prod.Failed?)
  {
    hide Inv, Next, Enabled, Shape;
    OpStep(s, a);
  }

  // Either all of the elements are appended, or none is.
  lemma AllOrNothing(ss: seq<State>, acts: seq<Act>, i: nat, j: nat)
    requires During(ss, acts, i, j) && ss[j].prod.Rest?
    ensures ss[j].items == ss[i].items + acts[i].xs || (ss[j].items == ss[i].items && ss[j - 1].prod.Failed?)
  {
    hide Inv, Init, Next, Enabled, Shape;
    EnqueueBegins(ss, acts, i);
    AlwaysInv(ss, acts, j - 1);
    assert StepsTo(ss[j - 1], acts[j - 1], ss[j]);
    OpRuns(ss, acts, i, j - 1);
    OpEnds(ss[j - 1], acts[j - 1]);
  }

  // A failed enqueue restores the tail, the tail block, the block number at the index tail and
  // the entries in use, save those of blocks emptied meanwhile, and holds no block any more,
  // even if the index grew.
  lemma FailureIsUndone(ss: seq<State>, acts: seq<Act>, i: nat, j: nat)
    requires During(ss, acts, i, j) && ss[j].prod.Failed?
    ensures ss[j].tk.tail == ss[i].tk.tail && ss[j].items == ss[i].items
    ensures ss[j].tailBlock == ss[i].tailBlock && ss[j].top == ss[i].top
    ensures forall p :: p in ss[j].live ==> p in ss[i].live && ss[j].live[p] == ss[i].live[p]
    ensures forall p :: p in ss[i].live && p !in ss[j].live ==> 0 <= p && AllDone(ss[j].claim, p)
    ensures forall b :: 0 <= b < |ss[j].own| ==> ss[j].own[b] != WithProducer
  {
    OpRuns(ss, acts, i, j);
    AlwaysInv(ss, acts, j);
    AlwaysInv(ss, acts, i);
    assert StepsTo(ss[i], acts[i], ss[i + 1]);
    assert ss[i].prod.Rest? && ss[i].top == First(ss[i]) - 1;
    var s := ss[j];
    hide During, Behaviour, Shape, IndexInv, ClaimInv, ReadersInv, T.Inv;
    forall b | 0 <= b < |s.own| ensures s.own[b] != WithProducer {
      assert OwnAttended(s.own, s.prod, s.readers, b);
    }
    forall p | p in ss[i].live && p !in s.live ensures 0 <= p && AllDone(s.claim, p) {
      assert p in s.prod.op.live0;
    }
  }
}
