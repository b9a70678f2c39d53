/**
 The lock-free free list of `concurrentqueue.h`, as atomic steps of any number of threads
 over any number of nodes.

 A node carries a 32-bit word: a reference count in its low 31 bits and a
 should-be-on-free-list bit above them.  `head`, `refs` and `next` are the shared
 variables of the source; one step of a thread is one load, store, compare-and-swap or
 fetch-and-add, and every atomic is sequentially consistent.

 `list` and `place` are history variables.  No step reads them to decide what to do, except
 that a client may only pass to `add` a node that it holds (`place[n] == Out`), which is what
 the source asks of its callers.
 */
module FreeList {
  import opened Counting

  const WORD: nat := 0x1_0000_0000
  const SHOULD_BE_ON_FREELIST: nat := 0x8000_0000

  type Node = nat

  datatype Link = Nil | To(node: Node)

  // What a thread does when add_knowing_refcount_is_zero returns.
  datatype Cont = ReturnFromAdd | ResumeGet(seen: Link)

  // The program counter of a thread together with its local variables.
  datatype Pc =
    | Idle
    // add
    | AddSetBit(n: Node)
    // add_knowing_refcount_is_zero
    | LoadHead(n: Node, k: Cont)
    | StoreNext(n: Node, top: Link, k: Cont)
    | StoreRefs(n: Node, top: Link, k: Cont)
    | PushCas(n: Node, top: Link, k: Cont)
    | Unpublish(n: Node, top: Link, k: Cont)
    // try_get
    | GetLoadHead
    | GetLoadRefs(seen: Link)
    | IncRefs(n: Node, r: nat)
    | LoadNext(n: Node)
    | PopCas(n: Node, nx: Link)
    | DropTwo(n: Node)
    | DropOne(n: Node, seen: Link)

  // Where a node is between two calls of `add` for it.
  datatype Place =
    | Out                 // held by client code
    | Adding(t: nat)      // t is about to set the should-be-on-list bit
    | Waiting             // the bit is set, somebody still holds a reference
    | Inserting(t: nat)   // t runs add_knowing_refcount_is_zero, count still zero
    | Publishing(t: nat)  // t has stored a count of one and is about to push, or failed to
    | Listed
    | Popped(t: nat)      // t has unlinked it and is about to drop two references

  datatype State = State(
    head: Link,
    refs: seq<nat>,
    next: seq<Link>,
    threads: seq<Pc>,
    list: seq<Node>,
    place: seq<Place>)

  datatype Act = CallAdd(t: nat, n: Node) | CallGet(t: nat) | Go(t: nat)

  ghost predicate Shape(s: State)
  {
    && |s.refs| == |s.next| == |s.place|
    && (forall t :: 0 <= t < |s.threads| ==> InRange(s.threads[t], |s.refs|))
    && (s.head.To? ==> s.head.node < |s.refs|)
    && (forall n :: 0 <= n < |s.next| ==> LinkInRange(s.next[n], |s.refs|))
  }

  ghost predicate LinkInRange(l: Link, size: nat) { l.To? ==> l.node < size }

  ghost predicate InRange(pc: Pc, size: nat)
  {
    match pc
    case Idle => true
    case AddSetBit(n) => n < size
    case LoadHead(n, k) => n < size && ContInRange(k, size)
    case StoreNext(n, h, k) => n < size && LinkInRange(h, size) && ContInRange(k, size)
    case StoreRefs(n, h, k) => n < size && LinkInRange(h, size) && ContInRange(k, size)
    case PushCas(n, h, k) => n < size && LinkInRange(h, size) && ContInRange(k, size)
    case Unpublish(n, h, k) => n < size && LinkInRange(h, size) && ContInRange(k, size)
    case GetLoadHead => true
    case GetLoadRefs(seen) => LinkInRange(seen, size)
    case IncRefs(h, r) => h < size
    case LoadNext(h) => h < size
    case PopCas(h, nx) => h < size && LinkInRange(nx, size)
    case DropTwo(h) => h < size
    case DropOne(h, seen) => h < size && LinkInRange(seen, size)
  }

  ghost predicate ContInRange(k: Cont, size: nat) { k.ResumeGet? ==> LinkInRange(k.seen, size) }

  ghost predicate Enabled(s: State, a: Act)
  {
    match a
    case CallAdd(t, n) => t < |s.threads| && s.threads[t] == Idle && n < |s.place| && s.place[n] == Out
    case CallGet(t) => t < |s.threads| && s.threads[t] == Idle
    case Go(t) => t < |s.threads| && s.threads[t] != Idle
  }

  function Resume(k: Cont): Pc { if k.ReturnFromAdd? then Idle else GetLoadRefs(k.seen) }

  function Minus(a: nat, b: nat): nat
    requires b <= WORD
  { (a + WORD - b) % WORD }

  function Plus(a: nat, b: nat): nat { (a + b) % WORD }

  lemma SmallSums(a: nat, b: nat)
    ensures a + b < WORD ==> Plus(a, b) == a + b
    ensures b <= a < WORD ==> Minus(a, b) == a - b
  {}

  ghost function Next(s: State, a: Act): State
    requires Shape(s) && Enabled(s, a)
  {
    match a
    case CallAdd(t, n) =>
      s.(threads := s.threads[t := AddSetBit(n)], place := s.place[n := Adding(t)])
    case CallGet(t) =>
      s.(threads := s.threads[t := GetLoadHead])
    case Go(t) =>
      match s.threads[t]
      case AddSetBit(n) =>
        var was := s.refs[n];
        s.(refs := s.refs[n := Plus(was, SHOULD_BE_ON_FREELIST)],
           threads := s.threads[t := if was == 0 then LoadHead(n, ReturnFromAdd) else Idle],
           place := s.place[n := if was == 0 then Inserting(t) else Waiting])
      case LoadHead(n, k) =>
        s.(threads := s.threads[t := StoreNext(n, s.head, k)])
      case StoreNext(n, h, k) =>
        s.(next := s.next[n := h], threads := s.threads[t := StoreRefs(n, h, k)])
      case StoreRefs(n, h, k) =>
        s.(refs := s.refs[n := 1], threads := s.threads[t := PushCas(n, h, k)],
           place := s.place[n := Publishing(t)])
      case PushCas(n, h, k) =>
        if s.head == h then
          s.(head := To(n), threads := s.threads[t := Resume(k)],
             list := [n] + s.list, place := s.place[n := Listed])
        else
          s.(threads := s.threads[t := Unpublish(n, s.head, k)])
      case Unpublish(n, h, k) =>
        var was := s.refs[n];
        s.(refs := s.refs[n := Plus(was, SHOULD_BE_ON_FREELIST - 1)],
           threads := s.threads[t := if was == 1 then StoreNext(n, h, k) else Resume(k)],
           place := s.place[n := if was == 1 then Inserting(t) else Waiting])
      case GetLoadHead =>
        s.(threads := s.threads[t := GetLoadRefs(s.head)])
      case GetLoadRefs(seen) =>
        // the loop test, then the load of the word; an empty list makes try_get return null
        s.(threads := s.threads[t := if seen.Nil? then Idle else IncRefs(seen.node, s.refs[seen.node])])
      case IncRefs(h, r) =>
        if r % SHOULD_BE_ON_FREELIST == 0 || s.refs[h] != r then
          s.(threads := s.threads[t := GetLoadHead])
        else
          s.(refs := s.refs[h := Plus(r, 1)], threads := s.threads[t := LoadNext(h)])
      case LoadNext(h) =>
        s.(threads := s.threads[t := PopCas(h, s.next[h])])
      case PopCas(h, nx) =>
        if s.head == To(h) then
          s.(head := nx, threads := s.threads[t := DropTwo(h)],
             list := if s.list != [] then s.list[1..] else [], place := s.place[h := Popped(t)])
        else
          s.(threads := s.threads[t := DropOne(h, s.head)])
      case DropTwo(h) =>
        // try_get returns h to the client
        s.(refs := s.refs[h := Minus(s.refs[h], 2)], threads := s.threads[t := Idle],
           place := s.place[h := Out])
      case DropOne(h, seen) =>
        var was := s.refs[h];
        var last := was == SHOULD_BE_ON_FREELIST + 1;
        s.(refs := s.refs[h := Minus(was, 1)],
           threads := s.threads[t := if last then LoadHead(h, ResumeGet(seen)) else GetLoadRefs(seen)],
           place := if last then s.place[h := Inserting(t)] else s.place)
  }

  // Before any operation: every node is held by a client, its word is zero, the list is empty.
  ghost predicate Init(s: State)
  {
    && |s.refs| == |s.next| == |s.place|
    && s.head == Nil && s.list == []
    && (forall n :: 0 <= n < |s.refs| ==> s.refs[n] == 0 && s.next[n] == Nil && s.place[n] == Out)
    && (forall t :: 0 <= t < |s.threads| ==> s.threads[t] == Idle)
    && |s.threads| + 1 < SHOULD_BE_ON_FREELIST
  }

  // ------------------------------------------------------------------------------------
  // The invariant

  // Threads that have added one to the reference count of n and not yet taken it back.
  ghost predicate Holds(pc: Pc, n: Node)
  {
    match pc
    case LoadNext(h) => h == n
    case PopCas(h, _) => h == n
    case DropTwo(h) => h == n
    case DropOne(h, _) => h == n
    case _ => false
  }

  ghost function Holders(threads: seq<Pc>, n: Node): set<nat>
  {
    set t: nat | t < |threads| && Holds(threads[t], n)
  }

  // The place that the program counter of thread t claims for a node, if it claims one.
  ghost predicate Claims(pc: Pc, t: nat, n: Node, p: Place)
  {
    match pc
    case AddSetBit(m) => m == n && p == Adding(t)
    case LoadHead(m, _) => m == n && p == Inserting(t)
    case StoreNext(m, _, _) => m == n && p == Inserting(t)
    case StoreRefs(m, _, _) => m == n && p == Inserting(t)
    case PushCas(m, _, _) => m == n && p == Publishing(t)
    case Unpublish(m, _, _) => m == n && p == Publishing(t)
    case DropTwo(m) => m == n && p == Popped(t)
    case _ => false
  }

  ghost predicate PcOk(s: State, t: nat)
    requires Shape(s) && t < |s.threads|
  {
    match s.threads[t]
    case AddSetBit(n) => s.place[n] == Adding(t)
    case LoadHead(n, _) => s.place[n] == Inserting(t)
    case StoreNext(n, _, _) => s.place[n] == Inserting(t)
    case StoreRefs(n, h, _) => s.place[n] == Inserting(t) && s.next[n] == h
    case PushCas(n, h, _) => s.place[n] == Publishing(t) && s.next[n] == h
    case Unpublish(n, _, _) => s.place[n] == Publishing(t)
    case PopCas(h, nx) => s.next[h] == nx
    case DropTwo(h) => s.place[h] == Popped(t)
    case _ => true
  }

  ghost predicate Attended(s: State, n: Node)
    requires n < |s.place|
  {
    match s.place[n]
    case Adding(t) => t < |s.threads| && Claims(s.threads[t], t, n, s.place[n])
    case Inserting(t) => t < |s.threads| && Claims(s.threads[t], t, n, s.place[n])
    case Publishing(t) => t < |s.threads| && Claims(s.threads[t], t, n, s.place[n])
    case Popped(t) => t < |s.threads| && Claims(s.threads[t], t, n, s.place[n])
    case _ => true
  }

  function BitOf(p: Place): nat { if p.Waiting? || p.Inserting? then SHOULD_BE_ON_FREELIST else 0 }

  // The reference the list itself owns, also while a push is pending or a pop is unfinished.
  function ListRef(p: Place): nat { if p.Listed? || p.Publishing? || p.Popped? then 1 else 0 }

  ghost predicate CountOk(s: State, n: Node)
    requires n < |s.place| && n < |s.refs|
  {
    && s.refs[n] == BitOf(s.place[n]) + ListRef(s.place[n]) + |Holders(s.threads, n)|
    && (s.place[n].Inserting? ==> Holders(s.threads, n) == {})
    && (s.place[n].Waiting? ==> Holders(s.threads, n) != {})
  }

  function LinkAt(list: seq<Node>, i: nat): Link { if i < |list| then To(list[i]) else Nil }

  // Following `next` from `head` visits exactly `list`.
  ghost predicate ChainOk(head: Link, next: seq<Link>, list: seq<Node>)
  {
    && head == LinkAt(list, 0)
    && (forall i {:trigger list[i]} :: 0 <= i < |list| ==> list[i] < |next| && next[list[i]] == LinkAt(list, i + 1))
  }

  ghost predicate ListOk(s: State)
  {
    && ChainOk(s.head, s.next, s.list)
    && Distinct(s.list)
    && (forall n {:trigger s.place[n]} {:trigger n in s.list} :: 0 <= n < |s.place| ==>
      (s.place[n] == Listed <==> n in s.list))
  }

  ghost predicate Inv(s: State)
  {
    && Shape(s)
    && |s.threads| + 1 < SHOULD_BE_ON_FREELIST
    && ListOk(s)
    && (forall t :: 0 <= t < |s.threads| ==> PcOk(s, t))
    && (forall n :: 0 <= n < |s.place| ==> Attended(s, n))
    && (forall n :: 0 <= n < |s.place| ==> CountOk(s, n))
  }

  // ------------------------------------------------------------------------------------
  // Every step keeps the invariant

  lemma HoldersUpdate(threads: seq<Pc>, t: nat, pc: Pc, n: Node)
    requires t < |threads|
    ensures Holders(threads[t := pc], n) ==
            if Holds(pc, n) then Holders(threads, n) + {t} else Holders(threads, n) - {t}
    ensures |Holders(threads[t := pc], n)| ==
            |Holders(threads, n)| - (if Holds(threads[t], n) then 1 else 0) + (if Holds(pc, n) then 1 else 0)
  {
    hide Holds;
    var before, after := Holders(threads, n), Holders(threads[t := pc], n);
    assert after - {t} == before - {t};
    assert t in before <==> Holds(threads[t], n);
    assert t in after <==> Holds(pc, n);
    assert |before| == |before - {t}| + (if t in before then 1 else 0);
    assert |after| == |after - {t}| + (if t in after then 1 else 0);
  }

  lemma HoldersFew(threads: seq<Pc>, n: Node)
    ensures |Holders(threads, n)| <= |threads|
  {
    SubsetSize(Holders(threads, n), Range(0, |threads|));
  }

  // Words never overflow into the bit, because a thread holds at most one reference.
  lemma WordSplit(s: State, n: Node)
    requires Inv(s) && n < |s.place|
    ensures s.refs[n] < WORD
    ensures s.refs[n] >= SHOULD_BE_ON_FREELIST <==> s.place[n].Waiting? || s.place[n].Inserting?
    ensures s.refs[n] % SHOULD_BE_ON_FREELIST == ListRef(s.place[n]) + |Holders(s.threads, n)|
  {
    HoldersFew(s.threads, n);
    assert s.place[n] == s.place[n];
    assert CountOk(s, n);
  }

  lemma StepKeepsInv(s: State, a: Act)
    requires Inv(s) && Enabled(s, a)
    ensures Inv(Next(s, a))
  {
    match a
    case CallAdd(t, n) => CallAddKeepsInv(s, t, n);
    case CallGet(t) => LookKeepsInv(s, a, t);
    case Go(t) =>
      match s.threads[t]
      case AddSetBit(_) => AddSetBitKeepsInv(s, t);
      case LoadHead(_, _) => LoadHeadKeepsInv(s, t);
      case StoreNext(_, _, _) => StoreNextKeepsInv(s, t);
      case StoreRefs(_, _, _) => StoreRefsKeepsInv(s, t);
      case PushCas(_, _, _) => PushCasKeepsInv(s, t);
      case Unpublish(_, _, _) => UnpublishKeepsInv(s, t);
      case GetLoadHead => LookKeepsInv(s, a, t);
      case GetLoadRefs(_) => LookKeepsInv(s, a, t);
      case IncRefs(_, _) => IncRefsKeepsInv(s, t);
      case LoadNext(_) => LoadNextKeepsInv(s, t);
      case PopCas(_, _) => PopCasKeepsInv(s, t);
      case DropTwo(_) => DropTwoKeepsInv(s, t);
      case DropOne(_, _) => DropOneKeepsInv(s, t);
  }

  ghost predicate SameBut<T>(before: seq<T>, after: seq<T>, i: nat)
  {
    && |before| == |after|
    && forall j {:trigger after[j]} {:trigger before[j]} :: 0 <= j < |before| && j != i ==> before[j] == after[j]
  }

  ghost predicate NamesOther(p: Place, t: nat)
  {
    (p.Adding? || p.Inserting? || p.Publishing? || p.Popped?) && p.t != t
  }

  // A step of t about node n alone keeps the invariant if it does so for t and n.
  lemma StepFrame(s: State, s': State, t: nat, n: Node)
    requires Inv(s) && Shape(s') && ListOk(s')
    requires t < |s.threads| && n < |s.place|
    requires SameBut(s.threads, s'.threads, t) && SameBut(s.place, s'.place, n)
    requires SameBut(s.refs, s'.refs, n) && SameBut(s.next, s'.next, n)
    requires s'.next[n] == s.next[n] || s.place[n] == Inserting(t)
    requires s'.place[n] == s.place[n] || !NamesOther(s.place[n], t)
    requires forall m: Node :: m != n ==> !Holds(s.threads[t], m) && !Holds(s'.threads[t], m)
    requires forall m: Node, p: Place :: m != n ==> !Claims(s.threads[t], t, m, p)
    requires PcOk(s', t) && Attended(s', n) && CountOk(s', n)
    ensures Inv(s')
  {
    assert s'.threads == s.threads[t := s'.threads[t]];
    forall u | 0 <= u < |s'.threads| ensures PcOk(s', u) {
      assert PcOk(s, u);
      assert CountOk(s, n);
      if u != t && s.threads[u].PopCas? && s.threads[u].n == n {
        assert u in Holders(s.threads, n);
      }
    }
    forall m | 0 <= m < |s'.place| ensures Attended(s', m) && CountOk(s', m) {
      HoldersUpdate(s.threads, t, s'.threads[t], m);
      assert Attended(s, m) && CountOk(s, m);
    }
  }

  // A step that only looks.
  ghost predicate Looks(s: State, a: Act, t: nat)
    requires Inv(s)
  {
    && Enabled(s, a) && t < |s.threads| && (a == CallGet(t) || a == Go(t))
    && (a == Go(t) ==>
          var pc := s.threads[t];
          pc.GetLoadHead? || pc.GetLoadRefs? || (pc.IncRefs? && Next(s, a).threads[t] == GetLoadHead))
  }

  lemma LookKeepsPcs(s: State, a: Act, t: nat)
    requires Inv(s) && Looks(s, a, t)
    ensures var s' := Next(s, a); forall u :: 0 <= u < |s'.threads| ==> PcOk(s', u)
  {
    hide Holders, ChainOk, Distinct, CountOk, Attended;
    var s' := Next(s, a);
    forall u | 0 <= u < |s'.threads| ensures PcOk(s', u) {
      assert PcOk(s, u);
    }
  }

  // It changes nothing but the thread's program counter, and the thread had nothing in its hands.
  lemma LookStep(s: State, a: Act, t: nat) returns (pc: Pc)
    requires Inv(s) && Looks(s, a, t)
    ensures Next(s, a) == s.(threads := s.threads[t := pc])
    ensures forall m :: !Holds(pc, m) && !Holds(s.threads[t], m)
    ensures forall m, p :: !Claims(s.threads[t], t, m, p)
  {
    hide ListOk, PcOk, Attended, CountOk, Shape;
    pc := Next(s, a).threads[t];
  }

  lemma LookKeepsWord(s: State, a: Act, t: nat, m: Node)
    requires Inv(s) && Looks(s, a, t) && m < |s.place|
    ensures Attended(Next(s, a), m) && CountOk(Next(s, a), m)
  {
    hide Holders, ListOk, PcOk, Next, Holds, Claims;
    assert Attended(s, m) && CountOk(s, m);
    var pc := LookStep(s, a, t);
    HoldersUpdate(s.threads, t, pc, m);
  }

  lemma LookKeepsInv(s: State, a: Act, t: nat)
    requires Inv(s) && Looks(s, a, t)
    ensures Inv(Next(s, a))
  {
    hide Holders, ChainOk, Distinct, PcOk, Attended, CountOk;
    var s' := Next(s, a);
    LookKeepsPcs(s, a, t);
    forall m | 0 <= m < |s'.place| ensures Attended(s', m) && CountOk(s', m) {
      LookKeepsWord(s, a, t, m);
    }
  }

  lemma CallAddKeepsInv(s: State, t: nat, n: Node)
    requires Inv(s) && Enabled(s, CallAdd(t, n))
    ensures Inv(Next(s, CallAdd(t, n)))
  {
    hide Holders;
    var s' := Next(s, CallAdd(t, n));
    HoldersUpdate(s.threads, t, s'.threads[t], n);
    assert CountOk(s, n);
    StepFrame(s, s', t, n);
  }

  lemma AddSetBitKeepsInv(s: State, t: nat)
    requires Inv(s) && t < |s.threads| && s.threads[t].AddSetBit?
    ensures Inv(Next(s, Go(t)))
  {
    hide Holders;
    var n := s.threads[t].n;
    SmallSums(s.refs[n], SHOULD_BE_ON_FREELIST);
    var s' := Next(s, Go(t));
    HoldersUpdate(s.threads, t, s'.threads[t], n);
    WordSplit(s, n);
    assert PcOk(s, t) && CountOk(s, n) && Attended(s, n);
    StepFrame(s, s', t, n);
  }

  lemma LoadHeadKeepsInv(s: State, t: nat)
    requires Inv(s) && t < |s.threads| && s.threads[t].LoadHead?
    ensures Inv(Next(s, Go(t)))
  {
    hide Holders;
    var n := s.threads[t].n;
    var s' := Next(s, Go(t));
    HoldersUpdate(s.threads, t, s'.threads[t], n);
    WordSplit(s, n);
    assert PcOk(s, t) && CountOk(s, n) && Attended(s, n);
    StepFrame(s, s', t, n);
  }

  lemma StoreNextKeepsInv(s: State, t: nat)
    requires Inv(s) && t < |s.threads| && s.threads[t].StoreNext?
    ensures Inv(Next(s, Go(t)))
  {
    hide Holders;
    var n := s.threads[t].n;
    var s' := Next(s, Go(t));
    HoldersUpdate(s.threads, t, s'.threads[t], n);
    WordSplit(s, n);
    assert PcOk(s, t) && CountOk(s, n) && Attended(s, n);
    StepFrame(s, s', t, n);
  }

  lemma StoreRefsKeepsInv(s: State, t: nat)
    requires Inv(s) && t < |s.threads| && s.threads[t].StoreRefs?
    ensures Inv(Next(s, Go(t)))
  {
    hide Holders;
    var n := s.threads[t].n;
    var s' := Next(s, Go(t));
    HoldersUpdate(s.threads, t, s'.threads[t], n);
    WordSplit(s, n);
    assert PcOk(s, t) && CountOk(s, n) && Attended(s, n);
    StepFrame(s, s', t, n);
  }

  lemma PushKeepsList(s: State, t: nat)
    requires Inv(s) && t < |s.threads| && s.threads[t].PushCas?
    ensures ListOk(Next(s, Go(t)))
  {
    hide CountOk, Attended;
    assert PcOk(s, t);
  }

  lemma PushCasKeepsInv(s: State, t: nat)
    requires Inv(s) && t < |s.threads| && s.threads[t].PushCas?
    ensures Inv(Next(s, Go(t)))
  {
    hide Holders, ChainOk, Distinct;
    var n := s.threads[t].n;
    var s' := Next(s, Go(t));
    PushKeepsList(s, t);
    HoldersUpdate(s.threads, t, s'.threads[t], n);
    WordSplit(s, n);
    assert PcOk(s, t) && CountOk(s, n) && Attended(s, n);
    StepFrame(s, s', t, n);
  }

  lemma UnpublishKeepsInv(s: State, t: nat)
    requires Inv(s) && t < |s.threads| && s.threads[t].Unpublish?
    ensures Inv(Next(s, Go(t)))
  {
    hide Holders;
    var n := s.threads[t].n;
    SmallSums(s.refs[n], SHOULD_BE_ON_FREELIST - 1);
    var s' := Next(s, Go(t));
    HoldersUpdate(s.threads, t, s'.threads[t], n);
    WordSplit(s, n);
    assert PcOk(s, t) && CountOk(s, n) && Attended(s, n);
    StepFrame(s, s', t, n);
  }

  lemma LoadNextKeepsInv(s: State, t: nat)
    requires Inv(s) && t < |s.threads| && s.threads[t].LoadNext?
    ensures Inv(Next(s, Go(t)))
  {
    hide Holders;
    var n := s.threads[t].n;
    var s' := Next(s, Go(t));
    HoldersUpdate(s.threads, t, s'.threads[t], n);
    WordSplit(s, n);
    assert PcOk(s, t) && CountOk(s, n) && Attended(s, n);
    StepFrame(s, s', t, n);
  }

  lemma IncRefsKeepsInv(s: State, t: nat)
    requires Inv(s) && t < |s.threads| && s.threads[t].IncRefs?
    ensures Inv(Next(s, Go(t)))
  {
    hide Holders;
    var n := s.threads[t].n;
    var s' := Next(s, Go(t));
    if s'.threads[t] == GetLoadHead {
      LookKeepsInv(s, Go(t), t);
    } else {
      WordSplit(s, n);
      HoldersFew(s.threads, n);
      assert CountOk(s, n) && Attended(s, n);
      assert s'.refs[n] == s.refs[n] + 1;
      HoldersUpdate(s.threads, t, s'.threads[t], n);
      StepFrame(s, s', t, n);
    }
  }

  // A successful pop takes the first node off the list: the successor read is the current one.
  lemma PopKeepsList(s: State, t: nat)
    requires Inv(s) && t < |s.threads| && s.threads[t].PopCas?
    ensures ListOk(Next(s, Go(t)))
  {
    hide CountOk, Attended;
    assert PcOk(s, t);
  }

  lemma PopCasKeepsInv(s: State, t: nat)
    requires Inv(s) && t < |s.threads| && s.threads[t].PopCas?
    ensures Inv(Next(s, Go(t)))
  {
    hide Holders, ChainOk, Distinct;
    var n := s.threads[t].n;
    var s' := Next(s, Go(t));
    PopKeepsList(s, t);
    HoldersUpdate(s.threads, t, s'.threads[t], n);
    WordSplit(s, n);
    if s.head == To(n) {
      PopTakesFirst(s, t);
    }
    assert PcOk(s, t) && CountOk(s, n) && Attended(s, n);
    StepFrame(s, s', t, n);
  }

  lemma PopTakesFirst(s: State, t: nat)
    requires Inv(s) && t < |s.threads| && s.threads[t].PopCas? && s.head == To(s.threads[t].n)
    ensures s.place[s.threads[t].n] == Listed
  {
    assert s.list != [] && s.threads[t].n == s.list[0];
  }

  lemma DropTwoKeepsInv(s: State, t: nat)
    requires Inv(s) && t < |s.threads| && s.threads[t].DropTwo?
    ensures Inv(Next(s, Go(t)))
  {
    hide Holders;
    var n := s.threads[t].n;
    var s' := Next(s, Go(t));
    HoldersUpdate(s.threads, t, s'.threads[t], n);
    WordSplit(s, n);
    assert PcOk(s, t) && CountOk(s, n) && Attended(s, n);
    StepFrame(s, s', t, n);
  }

  lemma DropOneKeepsInv(s: State, t: nat)
    requires Inv(s) && t < |s.threads| && s.threads[t].DropOne?
    ensures Inv(Next(s, Go(t)))
  {
    hide Holders;
    var n := s.threads[t].n;
    var s' := Next(s, Go(t));
    HoldersUpdate(s.threads, t, s'.threads[t], n);
    WordSplit(s, n);
    assert PcOk(s, t) && CountOk(s, n) && Attended(s, n);
    StepFrame(s, s', t, n);
  }

  // ------------------------------------------------------------------------------------
  // Whole runs

  ghost predicate Behaviour(ss: seq<State>, acts: seq<Act>)
  {
    && |ss| == |acts| + 1
    && Init(ss[0])
    && forall i :: 0 <= i < |acts| ==> StepsTo(ss[i], acts[i], ss[i + 1])
  }

  ghost predicate StepsTo(s: State, a: Act, s': State)
  {
    Shape(s) && Enabled(s, a) && s' == Next(s, a)
  }

  lemma InitInv(s: State)
    requires Init(s)
    ensures Inv(s)
  {
    forall n | 0 <= n < |s.place| ensures CountOk(s, n) && Attended(s, n) {
      assert Holders(s.threads, n) == {};
    }
  }

  // Every state of every run satisfies the invariant.
  lemma {:induction false} AlwaysInv(ss: seq<State>, acts: seq<Act>, i: nat)
    requires Behaviour(ss, acts) && i < |ss|
    ensures Inv(ss[i])
  {
    if i == 0 {
      InitInv(ss[0]);
    } else {
      AlwaysInv(ss, acts, i - 1);
      assert StepsTo(ss[i - 1], acts[i - 1], ss[i]);
      StepKeepsInv(ss[i - 1], acts[i - 1]);
    }
  }

  // When the compare-and-swap of try_get succeeds, the successor it read earlier is still the
  // node's successor in the list, and the should-be-on-list bit is clear: no ABA.
  lemma PopIsExact(ss: seq<State>, acts: seq<Act>, i: nat, t: nat)
    requires Behaviour(ss, acts) && i < |ss|
    requires t < |ss[i].threads| && ss[i].threads[t].PopCas?
    requires ss[i].head == To(ss[i].threads[t].n)
    ensures var s, n := ss[i], ss[i].threads[t].n;
      && n < |s.next| && n < |s.refs|
      && s.threads[t].nx == s.next[n]
      && s.list != [] && s.list[0] == n && s.next[n] == LinkAt(s.list, 1)
      && s.refs[n] < SHOULD_BE_ON_FREELIST
  {
    AlwaysInv(ss, acts, i);
    var s := ss[i];
    assert PcOk(s, t);
    WordSplit(s, s.threads[t].n);
  }

  ghost predicate HandsOut(s: State, a: Act, n: Node)
  {
    a.Go? && a.t < |s.threads| && s.threads[a.t] == DropTwo(n)
  }

  // Between two hand-outs of a node by try_get some client has added it again.
  lemma HandedOutOncePerAdd(ss: seq<State>, acts: seq<Act>, i: nat, j: nat, n: Node)
    requires Behaviour(ss, acts) && i < j < |acts|
    requires HandsOut(ss[i], acts[i], n) && HandsOut(ss[j], acts[j], n)
    ensures exists k :: i < k < j && acts[k].CallAdd? && acts[k].n == n
  {
    if forall k :: i < k < j ==> !(acts[k].CallAdd? && acts[k].n == n) {
      AlwaysInv(ss, acts, i);
      assert StepsTo(ss[i], acts[i], ss[i + 1]);
      AlwaysInv(ss, acts, j);
      assert PcOk(ss[j], acts[j].t);
      StaysOut(ss, acts, i + 1, j, n);
      assert false;
    }
  }

  lemma {:induction false} StaysOut(ss: seq<State>, acts: seq<Act>, i: nat, j: nat, n: Node)
    requires Behaviour(ss, acts) && i <= j < |ss|
    requires n < |ss[i].place| && ss[i].place[n] == Out
    requires forall k :: i <= k < j ==> !(acts[k].CallAdd? && acts[k].n == n)
    ensures n < |ss[j].place| && ss[j].place[n] == Out
    decreases j - i
  {
    if i < j {
      AlwaysInv(ss, acts, i);
      var s := ss[i];
      assert StepsTo(s, acts[i], ss[i + 1]);
      if acts[i].Go? {
        assert PcOk(s, acts[i].t);
        WordSplit(s, n);
      }
      StaysOut(ss, acts, i + 1, j, n);
    }
  }

  // Threads inside add or add_knowing_refcount_is_zero for n.
  ghost predicate Inserts(pc: Pc, n: Node)
  {
    (pc.AddSetBit? || pc.LoadHead? || pc.StoreNext? || pc.StoreRefs? || pc.PushCas? || pc.Unpublish?) && pc.n == n
  }

  ghost function Inserters(threads: seq<Pc>, n: Node): set<nat>
  {
    set t: nat | t < |threads| && Inserts(threads[t], n)
  }

  ghost function Returners(threads: seq<Pc>, n: Node): set<nat>
  {
    set t: nat | t < |threads| && threads[t] == DropTwo(n)
  }

  // Nothing is lost: a node that no client holds is linked exactly once, or is being linked by
  // exactly one thread, or waits with its bit set for an outstanding reference, or is being
  // handed out by exactly one thread; and these exclude each other.
  lemma NothingLost(ss: seq<State>, acts: seq<Act>, i: nat, n: Node)
    requires Behaviour(ss, acts) && i < |ss| && n < |ss[i].place|
    ensures var s := ss[i];
      && n < |s.refs| && ChainOk(s.head, s.next, s.list) && Distinct(s.list)
      && var linked, inserters, returners := n in s.list, Inserters(s.threads, n), Returners(s.threads, n);
         match s.place[n]
         case Out => !linked && inserters == {} && returners == {} && s.refs[n] < SHOULD_BE_ON_FREELIST
         case Listed => linked && inserters == {} && returners == {} && s.refs[n] < SHOULD_BE_ON_FREELIST
         case Waiting => !linked && inserters == {} && returners == {}
                         && s.refs[n] > SHOULD_BE_ON_FREELIST && Holders(s.threads, n) != {}
         case Popped(t) => !linked && inserters == {} && returners == {t}
         case _ => !linked && |inserters| == 1 && returners == {}
  {
    AlwaysInv(ss, acts, i);
    var s := ss[i];
    WordSplit(s, n);
    assert CountOk(s, n) && Attended(s, n);
    var p := s.place[n];
    forall t: nat | t < |s.threads|
      ensures Inserts(s.threads[t], n) ==> p in {Adding(t), Inserting(t), Publishing(t)}
      ensures s.threads[t] == DropTwo(n) ==> p == Popped(t)
    {
      assert PcOk(s, t);
    }
    if p.Adding? || p.Inserting? || p.Publishing? {
      assert Inserters(s.threads, n) == {p.t};
    } else if p.Popped? {
      assert Returners(s.threads, n) == {p.t};
    }
  }

  // With no operation under way every node is in the list or held by a client, and its word says which.
  lemma QuiescentWords(ss: seq<State>, acts: seq<Act>, i: nat, n: Node)
    requires Behaviour(ss, acts) && i < |ss| && n < |ss[i].place|
    requires forall t :: 0 <= t < |ss[i].threads| ==> ss[i].threads[t] == Idle
    ensures n < |ss[i].refs| && ss[i].refs[n] == (if n in ss[i].list then 1 else 0)
    ensures n in ss[i].list <==> ss[i].place[n] != Out
  {
    NothingLost(ss, acts, i, n);
    AlwaysInv(ss, acts, i);
    assert CountOk(ss[i], n);
    assert Holders(ss[i].threads, n) == {};
  }

  // k steps of thread t on its own.
  ghost predicate Solo(ss: seq<State>, acts: seq<Act>, i: nat, t: nat, k: nat)
  {
    i + k <= |acts| && forall j {:trigger acts[j]} :: i <= j < i + k ==> acts[j] == Go(t)
  }

  lemma OneStep(ss: seq<State>, acts: seq<Act>, i: nat)
    requires Behaviour(ss, acts) && i < |acts|
    ensures StepsTo(ss[i], acts[i], ss[i + 1])
    ensures Inv(ss[i])
  {
    AlwaysInv(ss, acts, i);
  }

  // ------------------------------------------------------------------------------------
  // What the operations answer

  // A thread inside try_get, possibly adding a node whose last reference it dropped there.
  predicate InGet(pc: Pc)
  {
    match pc
    case Idle => false
    case AddSetBit(_) => false
    case LoadHead(_, k) => k.ResumeGet?
    case StoreNext(_, _, k) => k.ResumeGet?
    case StoreRefs(_, _, k) => k.ResumeGet?
    case PushCas(_, _, k) => k.ResumeGet?
    case Unpublish(_, _, k) => k.ResumeGet?
    case _ => true
  }

  // The head it will go on with is Nil.
  predicate SawNil(pc: Pc)
  {
    match pc
    case GetLoadRefs(seen) => seen.Nil?
    case DropOne(_, seen) => seen.Nil?
    case LoadHead(_, k) => k == ResumeGet(Nil)
    case StoreNext(_, _, k) => k == ResumeGet(Nil)
    case StoreRefs(_, _, k) => k == ResumeGet(Nil)
    case PushCas(_, _, k) => k == ResumeGet(Nil)
    case Unpublish(_, _, k) => k == ResumeGet(Nil)
    case _ => false
  }

  // One step of a call of try_get: it goes on, hands a node out, or has seen an empty list.
  lemma GetStep(s: State, t: nat)
    requires Inv(s) && t < |s.threads| && InGet(s.threads[t])
    ensures var pc, pc' := s.threads[t], Next(s, Go(t)).threads[t];
      && (pc' == Idle ==> SawNil(pc) || pc.DropTwo?)
      && (pc' != Idle ==> InGet(pc'))
      && (SawNil(pc') && !SawNil(pc) ==> s.head == Nil)
  {
    hide ListOk, Attended, CountOk, PcOk;
  }

  lemma OthersLeaveThread(s: State, a: Act, t: nat)
    requires Shape(s) && Enabled(s, a) && a.t != t && t < |s.threads|
    ensures Next(s, a).threads[t] == s.threads[t] && |Next(s, a).threads| == |s.threads|
  {}

  // Steps i + 1, ..., j - 1 of thread t belong to the operation that it calls with step i.
  ghost predicate Within(ss: seq<State>, acts: seq<Act>, i: nat, j: nat, t: nat)
  {
    && Behaviour(ss, acts) && i < j < |ss| && !acts[i].Go? && acts[i].t == t
    && forall k :: i < k < j ==> t < |ss[k].threads| && ss[k].threads[t] != Idle
  }

  lemma {:induction false} GetSoFar(ss: seq<State>, acts: seq<Act>, i: nat, j: nat, t: nat)
    requires Within(ss, acts, i, j, t) && acts[i].CallGet?
    requires t < |ss[j].threads| && ss[j].threads[t] != Idle
    ensures InGet(ss[j].threads[t])
    ensures SawNil(ss[j].threads[t]) ==> exists k :: i < k < j && ss[k].head == Nil
    decreases j
  {
    hide Next, Inv, InGet, SawNil, Init, Enabled, Shape;
    OneStep(ss, acts, j - 1);
    if j == i + 1 {
      GetBegins(ss[i], t);
    } else {
      StepShape(ss[j - 1], acts[j - 1]);
      GetSoFar(ss, acts, i, j - 1, t);
      if acts[j - 1].t == t {
        BusyGoes(ss[j - 1], acts[j - 1]);
        GetStep(ss[j - 1], t);
      } else {
        OthersLeaveThread(ss[j - 1], acts[j - 1], t);
      }
    }
  }

  lemma GetBegins(s: State, t: nat)
    requires Shape(s) && Enabled(s, CallGet(t))
    ensures Next(s, CallGet(t)).threads[t] == GetLoadHead && InGet(GetLoadHead) && !SawNil(GetLoadHead)
  {}

  lemma StepShape(s: State, a: Act)
    requires Shape(s) && Enabled(s, a)
    ensures a.t < |s.threads| == |Next(s, a).threads|
  {}

  lemma BusyGoes(s: State, a: Act)
    requires Shape(s) && Enabled(s, a) && a.t < |s.threads| && s.threads[a.t] != Idle
    ensures a.Go?
  {}

  // Thread t hands a node out.
  ghost predicate Gives(s: State, a: Act, t: nat) { a.t == t && exists n :: HandsOut(s, a, n) }

  // A call of try_get that has returned without handing a node out has seen the list empty.
  lemma EmptyHandedIfEmpty(ss: seq<State>, acts: seq<Act>, i: nat, j: nat, t: nat)
    requires Within(ss, acts, i, j, t) && acts[i].CallGet?
    requires t < |ss[j].threads| && ss[j].threads[t] == Idle
    ensures
      || (exists k :: i < k < j && Gives(ss[k], acts[k], t))
      || (exists k :: i < k < j && ss[k].head == Nil && ss[k].list == [])
  {
    hide Next, Inv, InGet, SawNil, Init, Enabled, Shape;
    var k := j - 1;
    OneStep(ss, acts, k);
    StepShape(ss[k], acts[k]);
    if i < k && acts[k].t == t {
      BusyGoes(ss[k], acts[k]);
      GetSoFar(ss, acts, i, k, t);
      GetStep(ss[k], t);
      if ss[k].threads[t].DropTwo? {
        assert HandsOut(ss[k], acts[k], ss[k].threads[t].n);
        assert Gives(ss[k], acts[k], t);
      } else {
        var l :| i < l < k && ss[l].head == Nil;
        OneStep(ss, acts, l);
        NilMeansEmpty(ss[l]);
      }
    } else if i < k {
      OthersLeaveThread(ss[k], acts[k], t);
    } else {
      GetBegins(ss[i], t);
    }
  }

  lemma NilMeansEmpty(s: State)
    requires Inv(s) && s.head == Nil
    ensures s.list == []
  {}

  // What add promises: the step with which a thread is done with a node has put it at the front
  // of the list, or leaves it to a thread that holds a reference.
  lemma AddDelivers(ss: seq<State>, acts: seq<Act>, i: nat, t: nat, n: Node)
    requires Behaviour(ss, acts) && i < |acts| && acts[i] == Go(t)
    requires t < |ss[i].threads| && Inserts(ss[i].threads[t], n)
    requires t < |ss[i + 1].threads| && !Inserts(ss[i + 1].threads[t], n)
    ensures n < |ss[i + 1].place|
    ensures (ss[i + 1].list == [n] + ss[i].list && ss[i + 1].head == To(n))
      || (ss[i + 1].place[n] == Waiting && Holders(ss[i + 1].threads, n) != {})
  {
    OneStep(ss, acts, i);
    AlwaysInv(ss, acts, i + 1);
    assert CountOk(ss[i + 1], n);
  }

  // ------------------------------------------------------------------------------------
  // A thread left alone, in any reachable state

  // Steps a thread needs to be done with the node it inserts: fewer if it has seen the head.
  function AddRank(s: State, pc: Pc): nat
  {
    match pc
    case AddSetBit(_) => 5
    case LoadHead(_, _) => 4
    case StoreNext(_, top, _) => if top == s.head then 3 else 7
    case StoreRefs(_, top, _) => if top == s.head then 2 else 6
    case PushCas(_, top, _) => if top == s.head then 1 else 5
    case Unpublish(_, top, _) => if top == s.head then 4 else 8
    case _ => 0
  }

  lemma AddDescends(s: State, t: nat, n: Node)
    requires Inv(s) && t < |s.threads| && Inserts(s.threads[t], n)
    ensures var s' := Next(s, Go(t));
      Inserts(s'.threads[t], n) ==> AddRank(s', s'.threads[t]) < AddRank(s, s.threads[t])
  {
    hide ListOk, Attended, CountOk, PcOk;
  }

  // An add left alone is done after at most eight steps, with the node linked or waiting.
  lemma {:induction false} LoneAddEnds(ss: seq<State>, acts: seq<Act>, i: nat, t: nat, n: Node) returns (m: nat)
    requires Behaviour(ss, acts) && i < |ss| && t < |ss[i].threads| && Inserts(ss[i].threads[t], n)
    requires Solo(ss, acts, i, t, AddRank(ss[i], ss[i].threads[t]))
    ensures i < m <= i + AddRank(ss[i], ss[i].threads[t]) && m < |ss| && n < |ss[m].place|
    ensures (ss[m].list != [] && ss[m].list[0] == n && ss[m].head == To(n))
      || (ss[m].place[n] == Waiting && Holders(ss[m].threads, n) != {})
    decreases AddRank(ss[i], ss[i].threads[t])
  {
    hide Next, Inv, Enabled, Shape, Init;
    assert AddRank(ss[i], ss[i].threads[t]) > 0;
    OneStep(ss, acts, i);
    StepShape(ss[i], acts[i]);
    AddDescends(ss[i], t, n);
    if Inserts(ss[i + 1].threads[t], n) {
      m := LoneAddEnds(ss, acts, i + 1, t, n);
    } else {
      AddDelivers(ss, acts, i, t, n);
      m := i + 1;
    }
  }

  function LookRank(s: State, seen: Link): nat { if seen.Nil? then 1 else if seen == s.head then 5 else 10 }

  // The reference to n is the last one and the node is to be put back on the list.
  predicate LastOne(s: State, n: Node)
    requires n < |s.refs|
  {
    s.refs[n] == SHOULD_BE_ON_FREELIST + 1
  }

  // Steps a thread needs to return: fewer if what it has seen is still so.
  ghost function Rank(s: State, pc: Pc): nat
    requires InRange(pc, |s.refs|)
  {
    match pc
    case Idle => 0
    case GetLoadHead => 6
    case GetLoadRefs(seen) => LookRank(s, seen)
    case IncRefs(n, r) =>
      if r % SHOULD_BE_ON_FREELIST == 0 || s.refs[n] != r then 7 else if s.head == To(n) then 4 else 9
    case LoadNext(n) => if s.head == To(n) then 3 else if LastOne(s, n) then 17 else 8
    case PopCas(n, _) => if s.head == To(n) then 2 else if LastOne(s, n) then 16 else 7
    case DropTwo(_) => 1
    case DropOne(n, seen) => if LastOne(s, n) then 15 else 1 + LookRank(s, seen)
    case _ => 10 + AddRank(s, pc)
  }

  lemma HeadHasReference(s: State)
    requires Inv(s) && s.head.To?
    ensures s.refs[s.head.node] % SHOULD_BE_ON_FREELIST != 0 && s.refs[s.head.node] < SHOULD_BE_ON_FREELIST
  {
    var n := s.head.node;
    assert s.list != [] && s.list[0] == n;
    assert n in s.list;
    WordSplit(s, n);
  }

  lemma RankDescends(s: State, t: nat)
    requires Inv(s) && t < |s.threads| && s.threads[t] != Idle
    ensures var s' := Next(s, Go(t));
      && Shape(s') && t < |s'.threads|
      && (s'.threads[t] == Idle || Rank(s', s'.threads[t]) < Rank(s, s.threads[t]))
  {
    StepKeepsInv(s, Go(t));
    if s.head.To? {
      HeadHasReference(s);
    }
    hide ListOk, Attended, CountOk, PcOk;
  }

  // No thread left alone goes on for ever: it returns after at most eighteen steps.
  lemma {:induction false} LoneOperationEnds(ss: seq<State>, acts: seq<Act>, i: nat, t: nat) returns (m: nat)
    requires Behaviour(ss, acts) && i < |ss| && t < |ss[i].threads| && ss[i].threads[t] != Idle
    requires InRange(ss[i].threads[t], |ss[i].refs|) && Solo(ss, acts, i, t, Rank(ss[i], ss[i].threads[t]))
    ensures i < m <= i + Rank(ss[i], ss[i].threads[t]) <= i + 18
    ensures m < |ss| && t < |ss[m].threads| && ss[m].threads[t] == Idle
    decreases Rank(ss[i], ss[i].threads[t])
  {
    hide Next, Inv, Enabled, Shape, Init;
    assert 0 < Rank(ss[i], ss[i].threads[t]) <= 18;
    OneStep(ss, acts, i);
    RankDescends(ss[i], t);
    ThreadInRange(ss[i + 1], t);
    if ss[i + 1].threads[t] == Idle {
      m := i + 1;
    } else {
      m := LoneOperationEnds(ss, acts, i + 1, t);
    }
  }

  lemma ThreadInRange(s: State, t: nat)
    requires Shape(s) && t < |s.threads|
    ensures InRange(s.threads[t], |s.refs|)
  {}

  // An add of a node to which nobody holds a reference links it at the front in five steps, if
  // nothing interferes, wherever the other threads stand ...
  lemma SoloAdd(ss: seq<State>, acts: seq<Act>, i: nat, t: nat, n: Node)
    requires Behaviour(ss, acts) && i < |acts| && acts[i] == CallAdd(t, n) && Solo(ss, acts, i + 1, t, 5)
    requires Holders(ss[i].threads, n) == {}
    ensures ss[i + 6].list == [n] + ss[i].list && ss[i + 6].head == To(n)
    ensures ss[i + 6].threads == ss[i].threads
  {
    OneStep(ss, acts, i);
    assert CountOk(ss[i], n);
    OneStep(ss, acts, i + 1);
    OneStep(ss, acts, i + 2);
    OneStep(ss, acts, i + 3);
    OneStep(ss, acts, i + 4);
    OneStep(ss, acts, i + 5);
    assert ss[i + 6].threads == ss[i].threads[t := Idle];
  }

  // ... and a try_get takes the front node out in six.
  lemma SoloGet(ss: seq<State>, acts: seq<Act>, i: nat, t: nat)
    requires Behaviour(ss, acts) && i < |acts|
    requires acts[i] == CallGet(t) && Solo(ss, acts, i + 1, t, 6) && ss[i].head.To?
    ensures HandsOut(ss[i + 6], acts[i + 6], ss[i].head.node)
    ensures ss[i].list != [] && ss[i].list[0] == ss[i].head.node && ss[i + 7].list == ss[i].list[1..]
    ensures ss[i + 7].threads == ss[i].threads
  {
    OneStep(ss, acts, i);
    HeadHasReference(ss[i]);
    OneStep(ss, acts, i + 1);
    OneStep(ss, acts, i + 2);
    OneStep(ss, acts, i + 3);
    OneStep(ss, acts, i + 4);
    OneStep(ss, acts, i + 5);
    OneStep(ss, acts, i + 6);
    assert ss[i + 7].threads == ss[i].threads[t := Idle];
  }
}
