/**
 Every step of module ImplicitQueue keeps the invariant of module ImplicitInvariant.
 */
module ImplicitProof {
  import opened Counting
  import opened Modular
  import opened ImplicitQueue
  import opened ImplicitInvariant
  import T = Tickets

  // ------------------------------------------------------------------------------------
  // Positions in the index

  // A number in the window is found at its position.
  lemma NumberAtPos(entries: seq<Entry>, headers: seq<Header>, frontier: int, p: int)
    requires Layout(entries, headers, frontier)
    requires frontier - |entries| < p <= frontier
    ensures var c := headers[|headers| - 1]; entries[c.index[Pos(c, p)]].num == p
  {
    var c := headers[|headers| - 1];
    assert HeaderOk(c, entries, |entries|);
    var i := Pos(c, p);
    var e := entries[c.index[i]];
    assert EntryOk(e, frontier, |entries|);
    CongMod(p + c.shift, c.capacity);
    CongTrans(e.num + c.shift, i, p + c.shift, c.capacity);
    SameShift(e.num, p, c.shift, c.capacity);
    CongWindow(e.num, p, c.capacity, frontier - |entries|);
  }

  lemma SameShift(a: int, b: int, k: int, m: int)
    requires Cong(a + k, b + k, m)
    ensures Cong(a, b, m)
  {
    var q := CongElim(a + k, b + k, m);
    CongIntro(a, b, m, q);
  }

  lemma AddShift(a: int, b: int, k: int, m: int)
    requires Cong(a, b, m)
    ensures Cong(a + k, b + k, m)
  {
    var q := CongElim(a, b, m);
    CongIntro(a + k, b + k, m, q);
  }

  // The entry i places after the tail stands for a number congruent to top + i.
  lemma NumberAfterTail(entries: seq<Entry>, headers: seq<Header>, frontier: int, top: int, i: int)
    requires Layout(entries, headers, frontier) && TailOk(entries, headers, top)
    ensures var c := headers[|headers| - 1];
      && Cong(entries[c.index[At(c, i)]].num, top + i, c.capacity)
      && Cong(top + i + c.shift, At(c, i), c.capacity)
  {
    var c := headers[|headers| - 1];
    assert HeaderOk(c, entries, |entries|);
    var j := At(c, i);
    CongMod(c.tail + i, c.capacity);
    CongSym(j, c.tail + i, c.capacity);
    AddShift(top + c.shift, c.tail, i, c.capacity);
    CongTrans(top + c.shift + i, c.tail + i, j, c.capacity);
    var n := entries[c.index[j]].num;
    assert Cong(n + c.shift, j, c.capacity);
    CongSym(top + i + c.shift, j, c.capacity);
    CongTrans(n + c.shift, j, top + i + c.shift, c.capacity);
    SameShift(n, top + i, c.shift, c.capacity);
  }

  lemma LapBehind(n: int, t: int, m: int, w: int)
    requires Cong(n, t, m) && w < n <= w + m && w < t - m <= w + m
    ensures n == t - m
  {
    var k := CongElim(n, t, m);
    CongIntro(n, t - m, m, k + 1);
    CongWindow(n, t - m, m, w);
  }

  // The entry the next block goes to: already numbered so, or one lap behind.
  lemma NumberOfNext(s: State)
    requires Shape(s) && IndexInv(s)
    ensures var n := s.entries[Cur(s).index[At(Cur(s), 1)]].num;
      n == if s.top < s.frontier then s.top + 1 else s.top + 1 - |s.entries|
  {
    var e := Cur(s).index[At(Cur(s), 1)];
    NumberAfterTail(s.entries, s.headers, s.frontier, s.top, 1);
    assert EntryOk(s.entries[e], s.frontier, |s.entries|);
    var n := s.entries[e].num;
    if s.top < s.frontier {
      CongWindow(n, s.top + 1, |s.entries|, s.frontier - |s.entries|);
    } else {
      LapBehind(n, s.top + 1, |s.entries|, s.frontier - |s.entries|);
    }
  }

  // The lookup arithmetic: from the key at a position to the position of block number p.
  lemma LocateIsPos(h: Header, tl: nat, num: int, p: nat)
    requires h.capacity > 0 && Cong(num + h.shift, tl, h.capacity)
    ensures Locate(h, tl, BLOCK_SIZE * num, p) == Pos(h, p)
  {
    assert (BLOCK_SIZE * p - BLOCK_SIZE * num) / BLOCK_SIZE == p - num;
    CongSym(num + h.shift, tl, h.capacity);
    AddShift(tl, num + h.shift, p - num, h.capacity);
    var k := CongElim(tl + p - num, p + h.shift, h.capacity);
    SameResidue(tl + p - num, p + h.shift, h.capacity, k);
  }

  lemma SameResidue(a: int, b: int, m: int, k: int)
    requires m > 0 && a - b == m * k
    ensures a % m == b % m
  {
    assert b == m * (b / m) + b % m;
    assert a == m * (b / m + k) + b % m by {
      assert m * (b / m + k) == m * (b / m) + m * k;
    }
    DivModUnique(a, m, b / m + k, b % m);
  }

  // One position on is one block number on.
  lemma NextPos(h: Header, p: int)
    requires h.capacity > 0
    ensures (Pos(h, p) + 1) % h.capacity == Pos(h, p + 1)
  {
    var x := p + h.shift;
    assert x == h.capacity * (x / h.capacity) + x % h.capacity;
    SameResidue(x % h.capacity + 1, x + 1, h.capacity, -(x / h.capacity));
  }

  // The position before the tail carries the number before top.
  lemma MovedTail(entries: seq<Entry>, headers: seq<Header>, frontier: int, top: int, i: int)
    requires Layout(entries, headers, frontier) && TailOk(entries, headers, top)
    ensures var c := headers[|headers| - 1];
      Layout(entries, SetTail(headers, At(c, i)), frontier) && TailOk(entries, SetTail(headers, At(c, i)), top + i)
  {
    NumberAfterTail(entries, headers, frontier, top, i);
    var hs := SetTail(headers, At(headers[|headers| - 1], i));
    forall h | 0 <= h < |hs| ensures HeaderOk(hs[h], entries, |entries|) {
      assert HeaderOk(headers[h], entries, |entries|);
    }
    forall h | 0 <= h < |hs| - 1 ensures OldTailOk(entries, hs[h]) {
      assert OldTailOk(entries, headers[h]);
    }
  }

  // A key store moves an entry on by a whole number of laps, so every index still agrees with it.
  lemma StoreKeyEntries(s: State, e: nat, p: nat)
    requires Shape(s) && IndexInv(s) && NextEntry(s, e) && p == s.top + 1
    requires s.top == s.frontier ==> s.entries[e].num !in s.live
    ensures var es := s.entries[e := s.entries[e].(key := BLOCK_SIZE * p, num := p)];
      var f := if p > s.frontier then p else s.frontier;
      && (forall i :: 0 <= i < |es| ==> EntryOk(es[i], f, |es|))
      && (forall i, k :: 0 <= i < k < |es| ==> es[i].num != es[k].num)
  {
    hide HeaderOk, TailOk, LiveOk, NullsOk, ReadersShape, BlocksShape, EntriesShape, ProducerShape;
    NumberOfNext(s);
    var es := s.entries[e := s.entries[e].(key := BLOCK_SIZE * p, num := p)];
    var f := if p > s.frontier then p else s.frontier;
    forall i | 0 <= i < |es| ensures EntryOk(es[i], f, |es|) {
      assert EntryOk(s.entries[i], s.frontier, |s.entries|);
    }
  }

  lemma StoreKeyHeaders(s: State, e: nat, p: nat)
    requires Shape(s) && IndexInv(s) && NextEntry(s, e) && p == s.top + 1
    ensures var es := s.entries[e := s.entries[e].(key := BLOCK_SIZE * p, num := p)];
      forall h :: 0 <= h < |s.headers| ==> HeaderOk(s.headers[h], es, |es|)
  {
    hide EntryOk, TailOk, LiveOk, NullsOk, ReadersShape, BlocksShape, EntriesShape, ProducerShape;
    NumberOfNext(s);
    var es := s.entries[e := s.entries[e].(key := BLOCK_SIZE * p, num := p)];
    forall h | 0 <= h < |s.headers| ensures HeaderOk(s.headers[h], es, |es|) {
      var hd := s.headers[h];
      assert HeaderOk(hd, s.entries, |s.entries|);
      forall i | 0 <= i < hd.capacity ensures Cong(es[hd.index[i]].num + hd.shift, i, hd.capacity) {
        if hd.index[i] == e && s.entries[e].num != p {
          CongSum(s.entries[e].num + hd.shift, i, |s.entries|, 0, hd.capacity);
        }
      }
    }
  }

  lemma StoreKeyTail(s: State, e: nat, p: nat)
    requires Shape(s) && IndexInv(s) && NextEntry(s, e) && p == s.top + 1
    ensures TailOk(s.entries[e := s.entries[e].(key := BLOCK_SIZE * p, num := p)], s.headers, s.top)
  {
    hide HeaderOk, EntryOk, LiveOk, NullsOk, ReadersShape, BlocksShape, EntriesShape, ProducerShape;
    var es := s.entries[e := s.entries[e].(key := BLOCK_SIZE * p, num := p)];
    forall h | 0 <= h < |s.headers| - 1 ensures OldTailOk(es, s.headers[h]) {
      assert OldTailOk(s.entries, s.headers[h]);
    }
  }

  lemma StoreKeyLayout(s: State, e: nat, p: nat)
    requires Shape(s) && IndexInv(s) && NextEntry(s, e) && p == s.top + 1
    requires s.top == s.frontier ==> s.entries[e].num !in s.live
    ensures var es := s.entries[e := s.entries[e].(key := BLOCK_SIZE * p, num := p)];
      var f := if p > s.frontier then p else s.frontier;
      Layout(es, s.headers, f) && TailOk(es, s.headers, s.top)
  {
    hide EntryOk, HeaderOk, TailOk, LiveOk, NullsOk, ReadersShape, BlocksShape, EntriesShape, ProducerShape;
    StoreKeyEntries(s, e, p);
    StoreKeyHeaders(s, e, p);
    StoreKeyTail(s, e, p);
  }

  // ------------------------------------------------------------------------------------
  // A larger index

  // Old entry i of the enlarged index is the entry i + 1 places after the old tail, which
  // stands for frontier + 1 - capacity + i.
  lemma OldNumber(s: State, i: nat)
    requires Shape(s) && IndexInv(s) && s.top == s.frontier && i < Cur(s).capacity
    ensures s.entries[Cur(s).index[At(Cur(s), i + 1)]].num == s.frontier + 1 - |s.entries| + i
  {
    var e := Cur(s).index[At(Cur(s), i + 1)];
    NumberAfterTail(s.entries, s.headers, s.frontier, s.top, i + 1);
    assert EntryOk(s.entries[e], s.frontier, |s.entries|);
    LapBehind(s.entries[e].num, s.top + (i + 1), |s.entries|, s.frontier - |s.entries|);
  }

  lemma EnlargedOk(s: State, values: seq<Slot>)
    requires Shape(s) && IndexInv(s) && s.top == s.frontier && |values| == Cur(s).capacity
    ensures var h := Cur(s);
      HeaderOk(Enlarge(h, |s.entries|, s.frontier), s.entries + FreshEntries(h, s.frontier, values), 2 * |s.entries|)
  {
    var h := Cur(s);
    var es := s.entries + FreshEntries(h, s.frontier, values);
    var n := Enlarge(h, |s.entries|, s.frontier);
    CongIntro(2 * |s.entries|, 0, n.capacity, 1);
    forall i | 0 <= i < |n.index|
      ensures n.index[i] < |es| && Cong(es[n.index[i]].num + n.shift, i, n.capacity)
    {
      if i < h.capacity {
        OldNumber(s, i);
        assert es[n.index[i]].num + n.shift == i;
        CongIntro(i, i, n.capacity, 0);
      } else {
        assert es[n.index[i]].num + n.shift == i - n.capacity;
        CongIntro(i - n.capacity, i, n.capacity, -1);
      }
    }
  }

  // Headers keep listing the entries they listed.
  lemma OldHeaderOk(h: Header, entries: seq<Entry>, more: seq<Entry>, capacity: nat)
    requires HeaderOk(h, entries, capacity)
    ensures HeaderOk(h, entries + more, 2 * capacity)
  {
    CongSum(capacity, 0, capacity, 0, h.capacity);
    forall j | 0 <= j < h.capacity ensures Cong((entries + more)[h.index[j]].num + h.shift, j, h.capacity) {
      assert (entries + more)[h.index[j]] == entries[h.index[j]];
    }
  }

  lemma GrownEntries(s: State, values: seq<Slot>)
    requires Shape(s) && IndexInv(s) && |values| == Cur(s).capacity
    ensures var es := s.entries + FreshEntries(Cur(s), s.frontier, values);
      && (forall i :: 0 <= i < |es| ==> EntryOk(es[i], s.frontier, 2 * |s.entries|))
      && (forall i, j :: 0 <= i < j < |es| ==> es[i].num != es[j].num)
  {
    var es := s.entries + FreshEntries(Cur(s), s.frontier, values);
    forall i | 0 <= i < |es|
      ensures EntryOk(es[i], s.frontier, 2 * |s.entries|)
      ensures i < |s.entries| <==> es[i].num > s.frontier - |s.entries|
    {
      if i < |s.entries| {
        assert EntryOk(s.entries[i], s.frontier, |s.entries|);
      }
    }
  }

  ghost predicate GrownTail(s: State, es: seq<Entry>, hs: seq<Header>)
  {
    && hs != [] && hs[|hs| - 1].capacity > 0 && At(hs[|hs| - 1], 1) < |hs[|hs| - 1].index|
    && hs[|hs| - 1].index[At(hs[|hs| - 1], 1)] == |s.entries|
  }

  lemma GrowLayout(s: State, values: seq<Slot>)
    requires Shape(s) && IndexInv(s) && s.top == s.frontier && |values| == Cur(s).capacity
    ensures Layout(s.entries + FreshEntries(Cur(s), s.frontier, values),
                   s.headers + [Enlarge(Cur(s), |s.entries|, s.frontier)], s.frontier)
  {
    var added := FreshEntries(Cur(s), s.frontier, values);
    var es, hs := s.entries + added, s.headers + [Enlarge(Cur(s), |s.entries|, s.frontier)];
    EnlargedOk(s, values);
    GrownEntries(s, values);
    forall i | 0 <= i < |hs| ensures HeaderOk(hs[i], es, |es|) {
      if i < |s.headers| {
        assert HeaderOk(s.headers[i], s.entries, |s.entries|);
        OldHeaderOk(s.headers[i], s.entries, added, |s.entries|);
      }
    }
  }

  lemma GrowTail(s: State, values: seq<Slot>)
    requires Shape(s) && IndexInv(s) && s.top == s.frontier && |values| == Cur(s).capacity
    requires Valid(s.entries[Cur(s).index[Cur(s).tail]])
    ensures var es := s.entries + FreshEntries(Cur(s), s.frontier, values);
      var hs := s.headers + [Enlarge(Cur(s), |s.entries|, s.frontier)];
      (forall i :: 0 <= i < |hs| ==> HeaderShape(hs[i], |es|)) ==> TailOk(es, hs, s.top) && GrownTail(s, es, hs)
  {
    var h := Cur(s);
    var es, hs := s.entries + FreshEntries(h, s.frontier, values), s.headers + [Enlarge(h, |s.entries|, s.frontier)];
    if forall i :: 0 <= i < |hs| ==> HeaderShape(hs[i], |es|) {
      var n := hs[|hs| - 1];
      CongIntro(s.top + n.shift, n.tail, n.capacity, 0);
      forall i | 0 <= i < |hs| - 1 ensures OldTailOk(es, hs[i]) {
        if i < |s.headers| - 1 {
          assert OldTailOk(s.entries, s.headers[i]);
        }
      }
      DivModUnique(n.tail + 1, n.capacity, 0, h.capacity);
    }
  }

  // ------------------------------------------------------------------------------------
  // What a step may do to a dequeuing thread that does not take it

  lemma FullMeansAll(claim: seq<Claim>, p: nat, i: nat)
    requires |DoneIn(claim, p)| == BLOCK_SIZE && BLOCK_SIZE * p <= i < BLOCK_SIZE * p + BLOCK_SIZE
    ensures IsDone(claim, i)
  {
    var r := Range(BLOCK_SIZE * p, BLOCK_SIZE * p + BLOCK_SIZE);
    if i !in DoneIn(claim, p) {
      SubsetSize(DoneIn(claim, p), r - {i});
    }
  }

  // An element with a claim still open lies in a live block that is not full.
  lemma OpenIsLive(s: State, i: nat)
    requires BlockInv(s) && ClaimInv(s) && T.Inv(s.tk)
    requires i < |s.claim| && s.claim[i].By?
    ensures i < |s.items| && i / BLOCK_SIZE in s.live
    ensures var b := s.live[i / BLOCK_SIZE]; b < |s.own| && s.own[b] == InUse(i / BLOCK_SIZE)
  {
    T.ClaimsWithinTail(s.tk);
    assert !IsDone(s.claim, i);
    assert Holds(s.blocks, s.live, i, s.items[i]);
    var p := i / BLOCK_SIZE;
    assert Serves(s.own[s.live[p]], p);
    assert CountOk(s.blocks[s.live[p]], s.own[s.live[p]], s.claim);
    if s.own[s.live[p]].Emptied? {
      FullMeansAll(s.claim, p, i);
    }
  }

  ghost predicate HeadersExtend(before: seq<Header>, after: seq<Header>)
  {
    |before| <= |after| && forall h :: 0 <= h < |before| ==> SameSlots(before[h], after[h])
  }

  predicate SameSlots(a: Header, b: Header) { a.capacity == b.capacity && a.index == b.index && a.shift == b.shift }

  // Valid keys stay valid, and entries of live blocks keep their number.
  ghost predicate EntriesExtend(before: seq<Entry>, after: seq<Entry>, live: map<int, BlockId>)
  {
    |before| <= |after| && forall e :: 0 <= e < |before| ==> EntryKept(before[e], after[e], live)
  }

  predicate EntryKept(a: Entry, b: Entry, live: map<int, BlockId>)
  {
    (Valid(a) ==> Valid(b)) && (a.num in live ==> b.num == a.num)
  }

  // What t takes from blocks and claims is t's alone; the producer only touches blocks beyond its tail.
  ghost predicate KeptFromOthers(s: State, s': State, t: nat)
  {
    && |s.claim| <= |s'.claim| && |s.own| <= |s'.own|
    && (forall i :: 0 <= i < |s.claim| ==> s'.claim[i] == s.claim[i] || s.claim[i] == By(t))
    && (forall p :: p in s.live && p < First(s) ==>
          (p in s'.live && s'.live[p] == s.live[p]) || (s.live[p] < |s.own| && EmptiedBy(s.own[s.live[p]], t)))
    && (forall b :: 0 <= b < |s.own| ==> OwnKept(s.own[b], s'.own[b], t))
  }

  predicate EmptiedBy(o: Owner, t: nat) { o.Emptied? && o.t == t }

  predicate OwnKept(a: Owner, b: Owner, t: nat)
  {
    (a.Emptied? || a.Retiring?) && a.t != t ==> b == a
  }

  lemma PathFrame(s: State, s': State, u: nat, h: nat)
    requires Shape(s) && Shape(s') && T.Inv(s.tk) && BlockInv(s) && ClaimInv(s)
    requires u < |s.readers| && h < |s.headers| && ClaimsOk(s.claim, u, s.readers[u])
    requires HeadersExtend(s.headers, s'.headers) && EntriesExtend(s.entries, s'.entries, s.live)
    requires PathOk(s.entries, s.headers[h], Lo(s.readers[u]), Hi(s.readers[u]))
    ensures PathOk(s'.entries, s'.headers[h], Lo(s.readers[u]), Hi(s.readers[u]))
  {
    var lo, hi := Lo(s.readers[u]), Hi(s.readers[u]);
    assert SameSlots(s.headers[h], s'.headers[h]);
    forall p | lo < hi && lo / BLOCK_SIZE <= p <= (hi - 1) / BLOCK_SIZE
      ensures At0(s'.entries, s'.headers[h], p)
    {
      assert At0(s.entries, s.headers[h], p);
      PathLive(s, u, p);
      var e := s.headers[h].index[Pos(s.headers[h], p)];
      assert EntryKept(s.entries[e], s'.entries[e], s.live);
    }
  }

  lemma SearchingReaderFrame(s: State, s': State, t: nat, u: nat)
    requires Shape(s) && Shape(s') && T.Inv(s.tk) && BlockInv(s) && ClaimInv(s)
    requires u < |s.readers| == |s'.readers| && u != t && s'.readers[u] == s.readers[u]
    requires ReaderOk(s, u)
    requires HeadersExtend(s.headers, s'.headers) && EntriesExtend(s.entries, s'.entries, s.live)
    requires KeptFromOthers(s, s', t)
    requires var r := s.readers[u]; r.LoadIndexTail? || r.LoadTailKey? || r.LoadValue?
    ensures ReaderOk(s', u)
  {
    var r := s.readers[u];
    var h := r.h;
    assert SameSlots(s.headers[h], s'.headers[h]);
    PathFrame(s, s', u, h);
    if r.LoadTailKey? {
      var e := s.headers[h].index[r.tl];
      assert EntryKept(s.entries[e], s'.entries[e], s.live);
    }
  }

  lemma MovingReaderFrame(s: State, s': State, t: nat, u: nat)
    requires Shape(s) && Shape(s') && T.Inv(s.tk) && BlockInv(s) && ClaimInv(s)
    requires u < |s.readers| == |s'.readers| && u != t && s'.readers[u] == s.readers[u]
    requires ReaderOk(s, u)
    requires HeadersExtend(s.headers, s'.headers) && EntriesExtend(s.entries, s'.entries, s.live)
    requires KeptFromOthers(s, s', t)
    requires s.readers[u].Move? || s.readers[u].SetEmpty?
    ensures ReaderOk(s', u)
  {
    var r := s.readers[u];
    var h := r.h;
    assert SameSlots(s.headers[h], s'.headers[h]);
    PathFrame(s, s', u, h);
    OpenIsLive(s, r.lo);
    PathLive(s, u, r.lo / BLOCK_SIZE);
    hide HeadersShape, ReadersShape, EntriesShape, BlockInv, ClaimInv, T.Inv, PathOk, EntriesExtend;
  }

  lemma FreeingReaderFrame(s: State, s': State, t: nat, u: nat)
    requires Shape(s) && Shape(s') && T.Inv(s.tk) && BlockInv(s) && ClaimInv(s)
    requires u < |s.readers| == |s'.readers| && u != t && s'.readers[u] == s.readers[u]
    requires ReaderOk(s, u)
    requires HeadersExtend(s.headers, s'.headers) && EntriesExtend(s.entries, s'.entries, s.live)
    requires KeptFromOthers(s, s', t)
    requires s.readers[u].Unlink? || s.readers[u].Recycle?
    ensures ReaderOk(s', u)
  {
    hide PathOk, EntriesShape, ProducerShape, T.Inv, DataOk, CountsOk, BaseOk, AttendedOk;
    var r := s.readers[u];
    var h := r.h;
    assert SameSlots(s.headers[h], s'.headers[h]);
    PathFrame(s, s', u, h);
    assert OwnKept(s.own[r.b], s'.own[r.b], t);
    if r.Unlink? {
      var e := s.headers[h].index[Pos(s.headers[h], (r.lo - 1) / BLOCK_SIZE)];
      assert Served(s.own, s.live, r.b);
      assert EntryKept(s.entries[e], s'.entries[e], s.live);
    }
  }

  lemma ReaderFrame(s: State, s': State, t: nat, u: nat)
    requires Shape(s) && Shape(s') && T.Inv(s.tk) && BlockInv(s) && ClaimInv(s)
    requires u < |s.readers| == |s'.readers| && u != t && s'.readers[u] == s.readers[u]
    requires ReaderOk(s, u)
    requires HeadersExtend(s.headers, s'.headers) && EntriesExtend(s.entries, s'.entries, s.live)
    requires KeptFromOthers(s, s', t)
    ensures ReaderOk(s', u)
  {
    match s.readers[u]
    case LoadIndexTail(_, _, _) => SearchingReaderFrame(s, s', t, u);
    case LoadTailKey(_, _, _, _) => SearchingReaderFrame(s, s', t, u);
    case LoadValue(_, _, _, _) => SearchingReaderFrame(s, s', t, u);
    case Move(_, _, _, _, _, _, _) => MovingReaderFrame(s, s', t, u);
    case SetEmpty(_, _, _, _, _, _) => MovingReaderFrame(s, s', t, u);
    case Unlink(_, _, _, _, _) => FreeingReaderFrame(s, s', t, u);
    case Recycle(_, _, _, _, _) => FreeingReaderFrame(s, s', t, u);
    case _ =>
  }

  // The blocks a dequeuing thread still has to visit are live.
  lemma PathLive(s: State, u: nat, p: nat)
    requires Shape(s) && T.Inv(s.tk) && BlockInv(s) && ClaimInv(s)
    requires u < |s.readers| && ClaimsOk(s.claim, u, s.readers[u])
    requires var lo, hi := Lo(s.readers[u]), Hi(s.readers[u]); lo < hi && lo / BLOCK_SIZE <= p <= (hi - 1) / BLOCK_SIZE
    ensures p in s.live && p < First(s)
  {
    var lo := Lo(s.readers[u]);
    var i := if BLOCK_SIZE * p < lo then lo else BLOCK_SIZE * p;
    assert i / BLOCK_SIZE == p;
    assert s.claim[i] == By(u);
    OpenIsLive(s, i);
  }

  lemma ReadersFrame(s: State, s': State, t: nat)
    requires Shape(s) && Shape(s') && T.Inv(s.tk) && BlockInv(s) && ClaimInv(s) && ReadersInv(s)
    requires |s.readers| == |s'.readers| && forall u :: 0 <= u < |s.readers| && u != t ==> s'.readers[u] == s.readers[u]
    requires HeadersExtend(s.headers, s'.headers) && EntriesExtend(s.entries, s'.entries, s.live)
    requires KeptFromOthers(s, s', t)
    ensures forall u :: 0 <= u < |s.readers| && u != t ==> ReaderOk(s', u)
  {
    forall u | 0 <= u < |s.readers| && u != t ensures ReaderOk(s', u) {
      assert ReaderOk(s, u);
      ReaderFrame(s, s', t, u);
    }
  }
}
