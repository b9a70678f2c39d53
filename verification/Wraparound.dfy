/**
 The index arithmetic of `concurrentqueue.h` on N-bit unsigned integers, against the unbounded
 indices of modules Tickets and ImplicitQueue.

 An unbounded integer x is represented by Wrap(x, n), its residue modulo 2^n; machine sums,
 differences and casts are residues of the exact results.  Masking with BLOCK_SIZE - 1 and with
 its complement is taking and subtracting the remainder modulo 32, for 32 divides 2^n.
 */
module Wraparound {
  import opened Counting
  import opened Modular
  import IQ = ImplicitQueue
  import T = Tickets

  const BLOCK_SIZE: nat := IQ.BLOCK_SIZE

  function Wrap(x: int, n: nat): (r: nat)
    ensures r < Pow2(n)
  { x % Pow2(n) }

  function Half(n: nat): nat
    requires n >= 1
  { Pow2(n - 1) }

  lemma {:induction false} Halves(n: nat)
    requires n >= 1
    ensures Pow2(n) == 2 * Half(n)
  {}

  // What modulus and block size have to do with each other.
  lemma BlockDivides(n: nat)
    requires n >= 5
    ensures Pow2(n) == BLOCK_SIZE * Pow2(n - 5)
  {
    Pow2Sum(n - 5, 5);
    assert Pow2(1) == 2 && Pow2(2) == 4 && Pow2(3) == 8 && Pow2(4) == 16 && Pow2(5) == 32;
  }

  // ------------------------------------------------------------------------------------
  // Residues

  lemma {:induction false} WrapCong(x: int, n: nat)
    ensures Cong(Wrap(x, n), x, Pow2(n))
  {
    CongMod(x, Pow2(n));
  }

  // The residue of a sum or difference of representatives is that of the exact result.
  lemma WrapDiff(a: int, b: int, n: nat)
    ensures Wrap(Wrap(a, n) - Wrap(b, n), n) == Wrap(a - b, n)
    ensures Wrap(Wrap(a, n) + Wrap(b, n), n) == Wrap(a + b, n)
  {
    var m := Pow2(n);
    WrapCong(a, n);
    WrapCong(b, n);
    CongSum(Wrap(a, n), a, Wrap(b, n), b, m);
    SameWrap(Wrap(a, n) - Wrap(b, n), a - b, n);
    SameWrap(Wrap(a, n) + Wrap(b, n), a + b, n);
  }

  lemma {:induction false} SameWrap(a: int, b: int, n: nat)
    requires Cong(a, b, Pow2(n))
    ensures Wrap(a, n) == Wrap(b, n)
  {
    var m := Pow2(n);
    WrapCong(a, n);
    WrapCong(b, n);
    CongSym(Wrap(b, n), b, m);
    CongTrans(Wrap(a, n), a, b, m);
    CongTrans(Wrap(a, n), b, Wrap(b, n), m);
    CongWindow(Wrap(a, n), Wrap(b, n), m, -1);
  }

  lemma {:induction false} WrapSmall(x: int, n: nat)
    requires 0 <= x < Pow2(n)
    ensures Wrap(x, n) == x
  {
    DivModUnique(x, Pow2(n), 0, x);
  }

  lemma {:induction false} WrapNegative(x: int, n: nat)
    requires 0 - Pow2(n) <= x < 0
    ensures Wrap(x, n) == x + Pow2(n)
  {
    DivModUnique(x, Pow2(n), -1, x + Pow2(n));
  }

  // ------------------------------------------------------------------------------------
  // circular_less_than

  function CircularLessThan(a: nat, b: nat, n: nat): bool
    requires n >= 1
  {
    Wrap(a - b, n) > Half(n)
  }

  // Exactly when it agrees with the comparison of the unbounded indices.
  lemma {:induction false} CircularIsExact(a: int, b: int, n: nat)
    requires n >= 1 && 0 - Pow2(n) < a - b < Pow2(n)
    ensures (CircularLessThan(Wrap(a, n), Wrap(b, n), n) <==> a < b) <==> 0 - Half(n) < a - b <= Half(n)
  {
    Halves(n);
    WrapDiff(a, b, n);
    if a < b {
      WrapNegative(a - b, n);
    } else {
      WrapSmall(a - b, n);
    }
  }

  // ------------------------------------------------------------------------------------
  // The branches of a dequeue

  // What dequeue_bulk computes from its three loads, and the test on it.
  function Desired(tail: nat, optimistic: nat, over: nat, n: nat): nat
  {
    Wrap(tail - Wrap(optimistic - over, n), n)
  }

  // The branch is taken as with unbounded counters exactly if the difference is within half the
  // range, and then the amount is right too.  dequeue takes the same branch.
  lemma {:induction false} TicketBranch(tail: nat, optimistic: nat, over: nat, n: nat)
    requires n >= 1
    requires var x := tail - (optimistic - over); 0 - Pow2(n) < x < Pow2(n)
    ensures var x := tail - (optimistic - over);
      var d := Desired(Wrap(tail, n), Wrap(optimistic, n), Wrap(over, n), n);
      && ((CircularLessThan(0, d, n) <==> x > 0) <==> 0 - Half(n) <= x < Half(n))
      && (0 - Half(n) <= x < Half(n) && x > 0 ==> d == x)
      && (CircularLessThan(0, d, n) <==>
        CircularLessThan(Wrap(Wrap(optimistic, n) - Wrap(over, n), n), Wrap(tail, n), n))
  {
    hide Wrap, Pow2;
    var x := tail - (optimistic - over);
    WrapDiff(optimistic, over, n);
    WrapDiff(tail, optimistic - over, n);
    CircularIsExact(0, x, n);
    WrapSmall(0, n);
    WrapDiff(optimistic - over, tail, n);
    WrapDiff(0, x, n);
    if 0 < x < Half(n) {
      Halves(n);
      WrapSmall(x, n);
    }
  }

  // So a thread takes the step module Tickets gives it, while its loads are within half the
  // range: before it takes its tickets ...
  lemma TicketStepRefined(s: T.State, t: nat, n: nat)
    requires n >= 1 && t < |s.threads| && s.threads[t].LoadOptimistic?
    requires var pc := s.threads[t]; 0 - Half(n) <= pc.seenTail - (s.optimistic - pc.seenOver) < Half(n)
    ensures var pc := s.threads[t];
      var d := Desired(Wrap(pc.seenTail, n), Wrap(s.optimistic, n), Wrap(pc.seenOver, n), n);
      var pc' := T.Next(s, T.Go(t)).threads[t];
      if CircularLessThan(0, d, n) then pc' == T.TakeTickets(pc.seenOver, Min(d, pc.max)) else pc' == T.Idle
  {
    var pc := s.threads[t];
    Halves(n);
    TicketBranch(pc.seenTail, s.optimistic, pc.seenOver, n);
  }

  // ... and afterwards, when the second load of the tail decides how many of them have won.
  lemma ClaimStepRefined(s: T.State, t: nat, n: nat)
    requires n >= 1 && t < |s.threads| && s.threads[t].LoadTail?
    requires var pc := s.threads[t]; 0 - Half(n) <= s.tail - (pc.my - pc.seenOver) < Half(n)
    ensures var pc := s.threads[t];
      var d := Desired(Wrap(s.tail, n), Wrap(pc.my, n), Wrap(pc.seenOver, n), n);
      var got := Min(pc.want, d);
      T.Next(s, T.Go(t)).threads[t] ==
        if !CircularLessThan(0, d, n) then T.GiveBack(pc.my, pc.want)
        else if got < pc.want then T.Refund(pc.my, got, pc.want - got)
        else T.ClaimHead(pc.my, got)
  {
    var pc := s.threads[t];
    Halves(n);
    TicketBranch(s.tail, pc.my, pc.seenOver, n);
  }

  // ------------------------------------------------------------------------------------
  // Blocks and slots

  function BlockBase(x: nat): nat { x - x % BLOCK_SIZE }

  // Masking commutes with wrapping: the offset within a block, and the base of the block.
  lemma MaskingCommutes(i: nat, n: nat)
    requires n >= 5
    ensures Wrap(i, n) % BLOCK_SIZE == i % BLOCK_SIZE
    ensures BlockBase(Wrap(i, n)) == Wrap(BLOCK_SIZE * (i / BLOCK_SIZE), n)
  {
    var m := Pow2(n);
    BlockDivides(n);
    WrapCong(i, n);
    CongCoarser(Wrap(i, n), i, BLOCK_SIZE, Pow2(n - 5));
    CongSameRemainder(Wrap(i, n), i, BLOCK_SIZE);
    BaseCong(i, n);
    SameWrap(BlockBase(Wrap(i, n)), BLOCK_SIZE * (i / BLOCK_SIZE), n);
    WrapSmall(BlockBase(Wrap(i, n)), n);
  }

  lemma {:induction false} BaseCong(i: nat, n: nat)
    requires Wrap(i, n) % BLOCK_SIZE == i % BLOCK_SIZE
    ensures Cong(BlockBase(Wrap(i, n)), BLOCK_SIZE * (i / BLOCK_SIZE), Pow2(n))
  {
    WrapCong(i, n);
    var k := CongElim(Wrap(i, n), i, Pow2(n));
    CongIntro(BlockBase(Wrap(i, n)), BLOCK_SIZE * (i / BLOCK_SIZE), Pow2(n), k);
  }

  // get_block_index_index_for_index: the difference of the two bases is cast to signed and back
  // by the division, whose right operand is unsigned.
  function LookupSlot(tail: nat, index: nat, tailBase: nat, capacity: nat, n: nat): nat
    requires capacity > 0
  {
    Wrap(tail + Wrap(BlockBase(index) - tailBase, n) / BLOCK_SIZE, n) % capacity
  }

  predicate Divides(c: nat, k: nat)
    requires c > 0
  { k % c == 0 }

  // The quotient is the difference of the block numbers modulo 2^n / 32.
  lemma {:induction false} Quotient(d: int, n: nat)
    requires n >= 5
    ensures Wrap(BLOCK_SIZE * d, n) / BLOCK_SIZE == d % Pow2(n - 5)
  {
    var k := Pow2(n - 5);
    BlockDivides(n);
    var q, r := d / k, d % k;
    assert d == k * q + r;
    assert BLOCK_SIZE * d == Pow2(n) * q + BLOCK_SIZE * r by {
      assert BLOCK_SIZE * (k * q) == (BLOCK_SIZE * k) * q;
    }
    DivModUnique(BLOCK_SIZE * d, Pow2(n), q, BLOCK_SIZE * r);
    DivModUnique(BLOCK_SIZE * r, BLOCK_SIZE, r, 0);
  }

  lemma {:induction false} LookupIsModular(tail: nat, i: nat, b: nat, capacity: nat, n: nat)
    requires n >= 5 && capacity > 0
    ensures LookupSlot(tail, Wrap(i, n), Wrap(BLOCK_SIZE * b, n), capacity, n)
         == Wrap(tail + (i / BLOCK_SIZE - b) % Pow2(n - 5), n) % capacity
  {
    hide Wrap, BlockBase, Pow2;
    var p := i / BLOCK_SIZE;
    MaskingCommutes(i, n);
    WrapDiff(BLOCK_SIZE * p, BLOCK_SIZE * b, n);
    assert BLOCK_SIZE * p - BLOCK_SIZE * b == BLOCK_SIZE * (p - b);
    Quotient(p - b, n);
  }

  // The slot found is that of the unbounded computation, for all block numbers, exactly if the
  // capacity times the block size divides 2^n.
  lemma LookupIsExact(capacity: nat, n: nat)
    requires n >= 5 && capacity > 0
    ensures Divides(capacity, Pow2(n - 5)) <==>
      forall tail: nat, i: nat, b: nat :: tail < capacity ==>
        LookupSlot(tail, Wrap(i, n), Wrap(BLOCK_SIZE * b, n), capacity, n) == (tail + (i / BLOCK_SIZE - b)) % capacity
  {
    if Divides(capacity, Pow2(n - 5)) {
      forall tail: nat, i: nat, b: nat | tail < capacity
        ensures LookupSlot(tail, Wrap(i, n), Wrap(BLOCK_SIZE * b, n), capacity, n) ==
          (tail + (i / BLOCK_SIZE - b)) % capacity
      {
        LookupRight(tail, i, b, capacity, n);
      }
    } else {
      LookupWrong(capacity, n);
      var tail, i, b := 0, 0, 1;
      assert LookupSlot(tail, Wrap(i, n), Wrap(BLOCK_SIZE * b, n), capacity, n) !=
        (tail + (i / BLOCK_SIZE - b)) % capacity;
    }
  }

  lemma {:induction false} LookupRight(tail: nat, i: nat, b: nat, capacity: nat, n: nat)
    requires n >= 5 && capacity > 0 && Divides(capacity, Pow2(n - 5))
    ensures LookupSlot(tail, Wrap(i, n), Wrap(BLOCK_SIZE * b, n), capacity, n) ==
      (tail + (i / BLOCK_SIZE - b)) % capacity
  {
    var d, k := i / BLOCK_SIZE - b, Pow2(n - 5);
    var f := k / capacity;
    assert k == capacity * f && f > 0;
    BlockDivides(n);
    LookupIsModular(tail, i, b, capacity, n);
    CongMod(d, k);
    CongCoarser(d % k, d, capacity, f);
    var x := tail + d % k;
    WrapCong(x, n);
    assert Pow2(n) == capacity * (BLOCK_SIZE * f) by {
      assert BLOCK_SIZE * (capacity * f) == capacity * (BLOCK_SIZE * f);
    }
    CongCoarser(Wrap(x, n), x, capacity, BLOCK_SIZE * f);
    CongIntro(tail, tail, capacity, 0);
    CongSum(tail, tail, d % k, d, capacity);
    CongTrans(Wrap(x, n), x, tail + d, capacity);
    CongSameRemainder(Wrap(x, n), tail + d, capacity);
  }

  lemma CongSameRemainder(a: int, b: int, m: nat)
    requires m > 0 && Cong(a, b, m)
    ensures a % m == b % m
  {
    var k := CongElim(a, b, m);
    assert m * (b / m + k) == m * (b / m) + m * k;
    DivModUnique(a, m, b / m + k, b % m);
  }

  // One block behind the tail, in a capacity that does not divide: the slot is wrong.
  lemma {:induction false} LookupWrong(capacity: nat, n: nat)
    requires n >= 5 && capacity > 0 && !Divides(capacity, Pow2(n - 5))
    ensures LookupSlot(0, Wrap(0, n), Wrap(BLOCK_SIZE * 1, n), capacity, n) != (0 + (0 / BLOCK_SIZE - 1)) % capacity
  {
    var k := Pow2(n - 5);
    BlockDivides(n);
    LookupIsModular(0, 0, 1, capacity, n);
    DivModUnique(-1, k, -1, k - 1);
    WrapSmall(k - 1, n);
    DivModUnique(-1, capacity, -1, capacity - 1);
    if (k - 1) % capacity == capacity - 1 {
      DivModUnique(k, capacity, (k - 1) / capacity + 1, 0);
    }
  }

  // Every power of two up to 2^n / 32 is a good capacity, and so every capacity the index takes.
  lemma PowersDivide(e: nat, n: nat)
    requires n >= 5 && e <= n - 5
    ensures Divides(Pow2(e), Pow2(n - 5))
  {
    Pow2Sum(e, n - 5 - e);
    DivModUnique(Pow2(n - 5), Pow2(e), Pow2(n - 5 - e), 0);
  }

  // On N-bit keys and indices a thread computes the position module ImplicitQueue says.
  lemma {:induction false} LocateRefined(h: IQ.Header, tl: nat, num: nat, i: nat, n: nat)
    requires n >= 5 && h.capacity > 0 && Divides(h.capacity, Pow2(n - 5)) && tl < h.capacity
    ensures LookupSlot(tl, Wrap(i, n), Wrap(BLOCK_SIZE * num, n), h.capacity, n) ==
      IQ.Locate(h, tl, BLOCK_SIZE * num, i / BLOCK_SIZE)
  {
    LookupRight(tl, i, num, h.capacity, n);
    assert (BLOCK_SIZE * (i / BLOCK_SIZE) - BLOCK_SIZE * num) / BLOCK_SIZE == i / BLOCK_SIZE - num;
  }

  // The comment beside the division says that the sign is to be preserved.  A truncating signed
  // division would give another offset for every block behind the tail, but the same slot.
  function SignedOffset(diff: nat, n: nat): nat
    requires n >= 1
  {
    Wrap(if diff >= Half(n) then -((Pow2(n) - diff) / BLOCK_SIZE) else diff / BLOCK_SIZE, n)
  }

  lemma {:induction false} SignedDivisionAgrees(d: int, tail: nat, capacity: nat, n: nat)
    requires n >= 6 && 0 - Half(n) <= BLOCK_SIZE * d < Half(n) && capacity > 0 && Divides(capacity, Pow2(n - 5))
    ensures var diff := Wrap(BLOCK_SIZE * d, n);
      && Wrap(tail + SignedOffset(diff, n), n) % capacity == Wrap(tail + diff / BLOCK_SIZE, n) % capacity
      && (d < 0 <==> SignedOffset(diff, n) != diff / BLOCK_SIZE)
  {
    hide Wrap, Pow2, Half, SignedOffset;
    Quotient(d, n);
    SignedOffsetIs(d, n);
    SameSlot(d, tail, capacity, n);
    OffsetsDiffer(d, n);
  }

  // Both offsets are congruent to d modulo the capacity.
  lemma {:induction false} SameSlot(d: int, tail: nat, capacity: nat, n: nat)
    requires n >= 6 && capacity > 0 && Divides(capacity, Pow2(n - 5))
    ensures Wrap(tail + Wrap(d, n), n) % capacity == Wrap(tail + d % Pow2(n - 5), n) % capacity
  {
    hide Wrap, Pow2;
    var k := Pow2(n - 5);
    var f := k / capacity;
    assert k == capacity * f && f > 0;
    BlockDivides(n);
    assert Pow2(n) == capacity * (BLOCK_SIZE * f) by {
      assert BLOCK_SIZE * (capacity * f) == capacity * (BLOCK_SIZE * f);
    }
    CongMod(d, k);
    CongCoarser(d % k, d, capacity, f);
    WrapCong(d, n);
    CongCoarser(Wrap(d, n), d, capacity, BLOCK_SIZE * f);
    WrapsAgree(tail, d % k, d, capacity, n, BLOCK_SIZE * f);
    WrapsAgree(tail, Wrap(d, n), d, capacity, n, BLOCK_SIZE * f);
  }

  lemma {:induction false} OffsetsDiffer(d: int, n: nat)
    requires n >= 6 && 0 - Half(n) <= BLOCK_SIZE * d < Half(n)
    ensures d < 0 <==> Wrap(d, n) != d % Pow2(n - 5)
  {
    hide Wrap, Pow2;
    var k := Pow2(n - 5);
    Halves(n);
    BlockDivides(n);
    if d < 0 {
      WrapNegative(d, n);
      DivModUnique(d, k, -1, d + k);
    } else {
      WrapSmall(d, n);
      DivModUnique(d, k, 0, d);
    }
  }

  lemma SignedOffsetIs(d: int, n: nat)
    requires n >= 6 && 0 - Half(n) <= BLOCK_SIZE * d < Half(n)
    ensures SignedOffset(Wrap(BLOCK_SIZE * d, n), n) == Wrap(d, n)
  {
    Halves(n);
    if d < 0 {
      WrapNegative(BLOCK_SIZE * d, n);
      DivModUnique(BLOCK_SIZE * -d, BLOCK_SIZE, -d, 0);
    } else {
      WrapSmall(BLOCK_SIZE * d, n);
      DivModUnique(BLOCK_SIZE * d, BLOCK_SIZE, d, 0);
    }
  }

  lemma {:induction false} WrapsAgree(tail: nat, x: int, d: int, capacity: nat, n: nat, f: nat)
    requires capacity > 0 && f > 0 && Pow2(n) == capacity * f && Cong(x, d, capacity)
    ensures Wrap(tail + x, n) % capacity == (tail + d) % capacity
  {
    WrapCong(tail + x, n);
    CongCoarser(Wrap(tail + x, n), tail + x, capacity, f);
    CongIntro(tail, tail, capacity, 0);
    CongSum(tail, tail, x, d, capacity);
    CongTrans(Wrap(tail + x, n), tail + x, tail + d, capacity);
    CongSameRemainder(Wrap(tail + x, n), tail + d, capacity);
  }

  // ------------------------------------------------------------------------------------
  // Blocks an enqueue_bulk needs

  // blockBaseDiff of enqueue_bulk.
  function BlockBaseDiff(tail: nat, count: nat, n: nat): nat
  {
    Wrap(BlockBase(Wrap(tail + count - 1, n)) - BlockBase(Wrap(tail - 1, n)), n)
  }

  // It is 32 for every block module ImplicitQueue requisitions, up to the whole range.
  lemma {:induction false} BlocksNeeded(tail: nat, count: nat, n: nat)
    requires n >= 5 && BLOCK_SIZE * (IQ.Blocks(tail + count) - IQ.Blocks(tail)) < Pow2(n)
    ensures BlockBaseDiff(Wrap(tail, n), Wrap(count, n), n) == BLOCK_SIZE * (IQ.Blocks(tail + count) - IQ.Blocks(tail))
  {
    hide Wrap, BlockBase, Pow2, IQ.Blocks;
    Shifted(tail, n);
    LastBase(tail + count, n);
    LastBase(tail, n);
    ShiftedSum(tail, count, n);
    BlocksGrow(tail, count);
    var a, b := BLOCK_SIZE * (IQ.Blocks(tail + count) - 1), BLOCK_SIZE * (IQ.Blocks(tail) - 1);
    WrapDiff(a, b, n);
    assert a - b == BLOCK_SIZE * (IQ.Blocks(tail + count) - IQ.Blocks(tail)) >= 0;
    WrapSmall(a - b, n);
  }

  lemma BlocksGrow(tail: nat, count: nat)
    ensures IQ.Blocks(tail) <= IQ.Blocks(tail + count)
  {}

  lemma ShiftedSum(x: nat, y: nat, n: nat)
    ensures Wrap(Wrap(x, n) + Wrap(y, n) - 1, n) == Wrap(x + y - 1, n)
  {
    WrapCong(x, n);
    WrapCong(y, n);
    CongSum(Wrap(x, n), x, Wrap(y, n), y, Pow2(n));
    CongIntro(1, 1, Pow2(n), 0);
    CongSum(Wrap(x, n) + Wrap(y, n), x + y, 1, 1, Pow2(n));
    SameWrap(Wrap(x, n) + Wrap(y, n) - 1, x + y - 1, n);
  }

  lemma Shifted(x: nat, n: nat)
    ensures Wrap(Wrap(x, n) - 1, n) == Wrap(x - 1, n)
  {
    WrapCong(x, n);
    CongIntro(1, 1, Pow2(n), 0);
    CongSum(Wrap(x, n), x, 1, 1, Pow2(n));
    SameWrap(Wrap(x, n) - 1, x - 1, n);
  }

  // The base of the block before index x, also for x == 0.
  lemma LastBase(x: nat, n: nat)
    requires n >= 5
    ensures BlockBase(Wrap(x - 1, n)) == Wrap(BLOCK_SIZE * (IQ.Blocks(x) - 1), n)
  {
    if x > 0 {
      MaskingCommutes(x - 1, n);
      assert (x - 1) / BLOCK_SIZE == IQ.Blocks(x) - 1;
    } else {
      LastBaseOfZero(n);
    }
  }

  lemma LastBaseOfZero(n: nat)
    requires n >= 5
    ensures BlockBase(Wrap(-1, n)) == Wrap(0 - BLOCK_SIZE, n)
  {
    hide Wrap, Pow2;
    var k := Pow2(n - 5);
    BlockDivides(n);
    WrapNegative(-1, n);
    DivModUnique(BLOCK_SIZE * k - 1, BLOCK_SIZE, k - 1, BLOCK_SIZE - 1);
    WrapNegative(0 - BLOCK_SIZE, n);
  }

  // ------------------------------------------------------------------------------------
  // Ends of blocks

  // endIndex of dequeue_bulk.
  function EndIndex(index: nat, stop: nat, n: nat): nat
    requires n >= 1
  {
    var end := Wrap(BlockBase(index) + BLOCK_SIZE, n);
    if CircularLessThan(stop, end, n) then stop else end
  }

  // A dequeue works up to the end of its claim or of the block, whichever comes first.
  lemma EndIndexRefined(lo: nat, hi: nat, n: nat)
    requires n >= 7 && lo < hi && hi - lo <= Half(n)
    ensures EndIndex(Wrap(lo, n), Wrap(hi, n), n) == Wrap(Min(hi, (lo / BLOCK_SIZE + 1) * BLOCK_SIZE), n)
  {
    hide Wrap;
    var e := BLOCK_SIZE * (lo / BLOCK_SIZE) + BLOCK_SIZE;
    MaskingCommutes(lo, n);
    BlockEndWraps(BLOCK_SIZE * (lo / BLOCK_SIZE), n);
    Halves(n);
    Halves(n - 1);
    BlockDivides(n - 2);
    assert lo < e <= lo + BLOCK_SIZE && -32 <= hi - e && hi - e < Half(n);
    CircularIsExact(hi, e, n);
  }

  lemma BlockEndWraps(base: nat, n: nat)
    ensures Wrap(Wrap(base, n) + BLOCK_SIZE, n) == Wrap(base + BLOCK_SIZE, n)
  {
    WrapCong(base, n);
    CongIntro(BLOCK_SIZE, BLOCK_SIZE, Pow2(n), 0);
    CongSum(Wrap(base, n), base, BLOCK_SIZE, BLOCK_SIZE, Pow2(n));
    SameWrap(Wrap(base, n) + BLOCK_SIZE, base + BLOCK_SIZE, n);
  }

  // The test for a full sub-queue does not fire while the head is within half the range behind
  // the end of the next block.
  lemma NotFull(head: nat, base: nat, n: nat)
    requires n >= 1 && head <= base && base + BLOCK_SIZE - head < Half(n)
    ensures CircularLessThan(Wrap(head, n), Wrap(base + BLOCK_SIZE, n), n)
  {
    Halves(n);
    CircularIsExact(head, base + BLOCK_SIZE, n);
  }

  // The masks themselves, at the two widths size_t has: the offset within a block, and its base.
  lemma MasksAreRemainders(x: bv32, y: bv64)
    ensures x & 31 == x % 32 && x & 0xFFFF_FFE0 == x - x % 32
    ensures y & 31 == y % 32 && y & 0xFFFF_FFFF_FFFF_FFE0 == y - y % 32
  {}
}
