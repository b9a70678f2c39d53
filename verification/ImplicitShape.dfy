/**
 Every index a step of module ImplicitQueue uses is in range, whatever the interleaving.
 */
module ImplicitShape {
  import opened ImplicitQueue
  import T = Tickets

  lemma HeaderShapesKept(s: State, headers: seq<Header>, entries: nat)
    requires Shape(s) && |s.entries| <= entries
    requires |headers| >= |s.headers|
    requires forall h :: 0 <= h < |s.headers| ==> headers[h].capacity == s.headers[h].capacity
    requires forall h :: 0 <= h < |headers| ==> HeaderShape(headers[h], entries)
    ensures HeadersShape(headers, entries) && ReadersShape(s.readers, headers, |s.blocks|)
  {}

  lemma ProduceKeepsShape(s: State, c: Choice)
    requires Shape(s) && Enabled(s, Produce(c))
    ensures Shape(Next(s, Produce(c)))
  {
    match s.prod
    case StoreTail(_, _, _) => TailKeepsShape(s, c);
    case RewindNew(_, _, _) => TailKeepsShape(s, c);
    case UndoTail(_, _, _) => TailKeepsShape(s, c);
    case Grow(_, _) => GrowKeepsShape(s, c);
    case Requisition(_, _, _) => RequisitionKeepsShape(s, c);
    case Fill(_, _, _) => FillKeepsShape(s, c);
    case NullNew(_, _, _) => UndoKeepsShape(s, c);
    case UndoValue(_, _, _) => UndoKeepsShape(s, c);
    case GiveBack(_, _, _) => UndoKeepsShape(s, c);
    case Failed(_) => UndoKeepsShape(s, c);
    case _ => InsertKeepsShape(s, c);
  }

  lemma TailKeepsShape(s: State, c: Choice)
    requires Shape(s) && Enabled(s, Produce(c)) && (s.prod.StoreTail? || s.prod.RewindNew? || s.prod.UndoTail?)
    ensures Shape(Next(s, Produce(c)))
  {
    HeaderShapesKept(s, Next(s, Produce(c)).headers, |s.entries|);
    hide ReadersShape, HeadersShape;
  }

  lemma GrowKeepsShape(s: State, c: Choice)
    requires Shape(s) && Enabled(s, Produce(c)) && s.prod.Grow?
    ensures Shape(Next(s, Produce(c)))
  {
    var s' := Next(s, Produce(c));
    forall h | 0 <= h < |s'.headers| ensures HeaderShape(s'.headers[h], |s'.entries|) {
      if h < |s.headers| {
        assert HeaderShape(s.headers[h], |s.entries|);
      }
    }
    HeaderShapesKept(s, s'.headers, |s'.entries|);
    hide ReadersShape, HeadersShape;
  }

  lemma RequisitionKeepsShape(s: State, c: Choice)
    requires Shape(s) && Enabled(s, Produce(c)) && s.prod.Requisition?
    ensures Shape(Next(s, Produce(c)))
  {
    hide HeadersShape;
  }

  lemma FillKeepsShape(s: State, c: Choice)
    requires Shape(s) && Enabled(s, Produce(c)) && s.prod.Fill?
    ensures Shape(Next(s, Produce(c)))
  {
    hide ReadersShape, HeadersShape, EntriesShape;
  }

  lemma CurHasShape(s: State)
    requires Shape(s)
    ensures HeaderShape(Cur(s), |s.entries|)
  {}

  lemma InsertKeepsShape(s: State, c: Choice)
    requires Shape(s) && Enabled(s, Produce(c))
    requires s.prod.Look? || s.prod.StoreKey? || s.prod.ResetEmpty? || s.prod.Install?
    ensures Shape(Next(s, Produce(c)))
  {
    hide ReadersShape, HeadersShape;
    CurHasShape(s);
  }

  lemma UndoKeepsShape(s: State, c: Choice)
    requires Shape(s) && Enabled(s, Produce(c))
    requires s.prod.NullNew? || s.prod.UndoValue? || s.prod.GiveBack? || s.prod.Failed?
    ensures Shape(Next(s, Produce(c)))
  {
    hide ReadersShape, HeadersShape;
    CurHasShape(s);
  }

  lemma ReadKeepsShape(s: State, t: nat)
    requires Shape(s) && Enabled(s, Read(t))
    ensures Shape(Next(s, Read(t)))
  {
    hide HeadersShape, ProducerShape;
    var s' := Next(s, Read(t));
    ReaderKeepsShape(s, t);
    forall u | 0 <= u < |s'.readers| ensures ReaderShape(s'.readers[u], s'.headers, |s'.blocks|) {
      assert ReaderShape(s.readers[u], s.headers, |s.blocks|);
    }
  }

  lemma ReaderKeepsShape(s: State, t: nat)
    requires Shape(s) && Enabled(s, Read(t))
    ensures var s' := Next(s, Read(t));
      && s'.headers == s.headers && |s'.blocks| == |s.blocks| && |s'.entries| == |s.entries|
      && |s'.readers| == |s.readers| && (forall u :: 0 <= u < |s.readers| && u != t ==> s'.readers[u] == s.readers[u])
      && ReaderShape(s'.readers[t], s.headers, |s.blocks|)
  {
    assert ReaderShape(s.readers[t], s.headers, |s.blocks|);
    if !s.readers[t].LoadIndex? {
      var h := s.headers[s.readers[t].h];
      assert HeaderShape(h, |s.entries|);
    }
    hide HeadersShape, ReadersShape, ProducerShape;
  }

  lemma TicketKeepsShape(s: State, a: T.Act)
    requires Shape(s) && Enabled(s, Ticket(a))
    ensures Shape(Next(s, Ticket(a)))
  {
    hide HeadersShape;
  }

  lemma ShapeKept(s: State, a: Act)
    requires Shape(s) && Enabled(s, a)
    ensures Shape(Next(s, a))
  {
    match a
    case Enqueue(xs) =>
    case Produce(c) => ProduceKeepsShape(s, c);
    case Ticket(ta) => TicketKeepsShape(s, ta);
    case Read(t) => ReadKeepsShape(s, t);
    case OthersTake(b) =>
    case OthersReturn(b) =>
  }
}
