/**
 `get_or_add_implicit_producer` of `concurrentqueue.h`: the chain of lock-free, linearly
 probed hash tables from thread id to implicit producer, as atomic steps of any number of
 threads.

 Thread t has id t and hash value hash[t], both arbitrary but fixed.  Memory allocation succeeds
 and thread-local storage is not used, so a key is never removed and a producer never reused.
 A table's capacity is the number of its keys; capacities are powers of two, so the source's
 `index &= capacity - 1` is the remainder modulo capacity.

 History variables: `ticket` (the count a thread obtained, 0 for none), `owner`, `holder`, and the
 probe distances d of the program counters.
 */
module ProducerHash {
  import opened Modular

  const INITIAL_IMPLICIT_PRODUCER_HASH_SIZE: nat := 32

  datatype Key = Empty | Of(t: nat)

  datatype Owner = NoProducer | Is(p: nat)

  // prev is the position of the previous table in the chain, -1 for none
  datatype Table = Table(keys: seq<Key>, values: seq<Owner>, prev: int)

  datatype Pc =
    | Idle
    | LoadMain
    | Probe(main: nat, h: nat, i: nat, d: nat)
    | ReadValue(main: nat, h: nat, i: nat)
    // putting the thread's key into table main, either lazily again or for the first time
    | PutLoad(main: nat, v: Owner, i: nat, d: nat)
    | PutCas(main: nat, v: Owner, i: nat, d: nat)
    | PutValue(main: nat, v: Owner, i: nat)
    | AddCount(main: nat)
    | CheckSize(main: nat, n: nat)
    | ReloadLocked(n: nat)
    | NewTable(main: nat, n: nat)
    | Unlock(main: nat, n: nat)
    | CheckRoom(main: nat, n: nat)
    | Reload(n: nat)
    | Create(main: nat, n: nat)
    | Return(v: Owner)

  datatype State = State(
    tables: seq<Table>,      // the last one is implicitProducerHash
    count: nat,              // implicitProducerHashCount
    lock: bool,              // implicitProducerHashResizeInProgress
    producers: nat,          // producers created so far; they are numbered from 0
    threads: seq<Pc>,
    hash: seq<nat>,
    ticket: seq<nat>,
    owner: seq<Owner>,
    holder: nat)

  datatype Act = Call(t: nat) | Go(t: nat)

  function Slot(hash: nat, d: nat, capacity: nat): nat
    requires capacity > 0
  { (hash + d) % capacity }

  // Room for first insertions: three quarters of the table.
  function Room(capacity: nat): nat { capacity / 2 + capacity / 4 }

  function Larger(capacity: nat, n: nat): (r: nat)
    requires capacity > 0
    ensures r >= capacity && n < r / 2
    decreases n - capacity / 2
  {
    if n >= capacity / 2 then Larger(capacity * 2, n) else capacity
  }

  function NewKeys(capacity: nat): seq<Key> { seq(capacity, i => Empty) }

  function NewValues(capacity: nat): seq<Owner> { seq(capacity, i => NoProducer) }

  // ------------------------------------------------------------------------------------
  // Steps

  ghost predicate Shape(s: State)
  {
    && s.tables != []
    && |s.hash| == |s.ticket| == |s.owner| == |s.threads|
    && (forall k :: 0 <= k < |s.tables| ==> TableShape(s.tables[k], k))
    && (forall t :: 0 <= t < |s.threads| ==> PcShape(s.threads[t], s.tables))
  }

  // A table has room for the initial capacity at least, and its predecessor is the one before it.
  ghost predicate TableShape(tb: Table, k: nat)
  {
    |tb.keys| == |tb.values| >= INITIAL_IMPLICIT_PRODUCER_HASH_SIZE && tb.prev == k - 1
  }

  ghost predicate PcShape(pc: Pc, tables: seq<Table>)
  {
    match pc
    case Probe(main, h, i, _) => h <= main < |tables| && i < |tables[h].keys|
    case ReadValue(main, h, i) => h <= main < |tables| && i < |tables[h].keys| == |tables[h].values|
    case PutLoad(main, _, i, _) => main < |tables| && i < |tables[main].keys|
    case PutCas(main, _, i, _) => main < |tables| && i < |tables[main].keys|
    case PutValue(main, _, i) => main < |tables| && i < |tables[main].keys| == |tables[main].values|
    case AddCount(main) => main < |tables|
    case CheckSize(main, _) => main < |tables|
    case NewTable(main, _) => main < |tables|
    case Unlock(main, _) => main < |tables|
    case CheckRoom(main, _) => main < |tables|
    case Create(main, _) => main < |tables|
    case _ => true
  }

  ghost predicate Enabled(s: State, a: Act)
  {
    match a
    case Call(t) => t < |s.threads| && s.threads[t].Idle?
    case Go(t) => t < |s.threads| && !s.threads[t].Idle?
  }

  ghost function Next(s: State, a: Act): State
    requires Shape(s) && Enabled(s, a)
  {
    match a
    case Call(t) => s.(threads := s.threads[t := LoadMain])
    case Go(t) =>
      match s.threads[t]
      case LoadMain =>
        var m := |s.tables| - 1;
        GoTo(s, t, Probe(m, m, Slot(s.hash[t], 0, |s.tables[m].keys|), 0))
      case Probe(main, h, i, d) =>
        var tb := s.tables[h];
        if tb.keys[i] == Of(t) then GoTo(s, t, ReadValue(main, h, i))
        else if tb.keys[i] == Empty then
          if 0 <= tb.prev <= h then
            GoTo(s, t, Probe(main, tb.prev, Slot(s.hash[t], 0, |s.tables[tb.prev].keys|), 0))
          else
            GoTo(s, t, AddCount(main))
        else
          GoTo(s, t, Probe(main, h, (i + 1) % |tb.keys|, d + 1))
      case ReadValue(main, h, i) =>
        var v := s.tables[h].values[i];
        GoTo(s, t, if h != main then PutLoad(main, v, Slot(s.hash[t], 0, |s.tables[main].keys|), 0) else Return(v))
      case PutLoad(main, v, i, d) =>
        GoTo(s, t, if s.tables[main].keys[i] == Empty then PutCas(main, v, i, d)
                   else PutLoad(main, v, (i + 1) % |s.tables[main].keys|, d + 1))
      case PutCas(main, v, i, d) =>
        var tb := s.tables[main];
        if tb.keys[i] == Empty then
          GoTo(s.(tables := s.tables[main := tb.(keys := tb.keys[i := Of(t)])]), t, PutValue(main, v, i))
        else
          GoTo(s, t, PutLoad(main, v, (i + 1) % |tb.keys|, d + 1))
      case PutValue(main, v, i) =>
        var tb := s.tables[main];
        GoTo(s.(tables := s.tables[main := tb.(values := tb.values[i := v])]), t, Return(v))
      case AddCount(main) =>
        GoTo(s.(count := s.count + 1, ticket := s.ticket[t := s.count + 1]), t, CheckSize(main, s.count + 1))
      case CheckSize(main, n) =>
        if n >= |s.tables[main].keys| / 2 && !s.lock then
          GoTo(s.(lock := true, holder := t), t, ReloadLocked(n))
        else
          GoTo(s, t, CheckRoom(main, n))
      case ReloadLocked(n) =>
        var m := |s.tables| - 1;
        GoTo(s, t, if n >= |s.tables[m].keys| / 2 then NewTable(m, n) else Unlock(m, n))
      case NewTable(main, n) =>
        var capacity := Larger(|s.tables[main].keys| * 2, n);
        GoTo(s.(tables := s.tables + [Table(NewKeys(capacity), NewValues(capacity), main)]), t, Unlock(|s.tables|, n))
      case Unlock(main, n) =>
        GoTo(s.(lock := false), t, CheckRoom(main, n))
      case CheckRoom(main, n) =>
        GoTo(s, t, if n < Room(|s.tables[main].keys|) then Create(main, n) else Reload(n))
      case Reload(n) =>
        GoTo(s, t, CheckSize(|s.tables| - 1, n))
      case Create(main, n) =>
        GoTo(s.(producers := s.producers + 1, owner := s.owner[t := Is(s.producers)]), t,
             PutLoad(main, Is(s.producers), Slot(s.hash[t], 0, |s.tables[main].keys|), 0))
      case Return(_) => GoTo(s, t, Idle)
  }

  function GoTo(s: State, t: nat, pc: Pc): State
    requires t < |s.threads|
  {
    s.(threads := s.threads[t := pc])
  }

  ghost predicate Init(s: State)
  {
    && s.tables == [Table(NewKeys(INITIAL_IMPLICIT_PRODUCER_HASH_SIZE),
      NewValues(INITIAL_IMPLICIT_PRODUCER_HASH_SIZE), -1)]
    && s.count == 0 && !s.lock && s.producers == 0
    && |s.hash| == |s.ticket| == |s.owner| == |s.threads|
    && forall t :: 0 <= t < |s.threads| ==> s.threads[t] == Idle && s.ticket[t] == 0 && s.owner[t] == NoProducer
  }

  // ------------------------------------------------------------------------------------
  // The invariant

  predicate Taken(tb: Table, i: nat, t: nat) { i < |tb.keys| && tb.keys[i].Of? && tb.keys[i] != Of(t) }

  // The first d probes of thread t meet keys of other threads.
  ghost predicate Missed(tb: Table, hash: nat, t: nat, d: nat)
    requires |tb.keys| > 0
  {
    forall j :: 0 <= j < d ==> Taken(tb, Slot(hash, j, |tb.keys|), t)
  }

  // Position i is the d-th that t probes, and those before are taken.
  ghost predicate ProbedTo(tb: Table, hash: nat, t: nat, i: nat, d: nat)
    requires |tb.keys| > 0
  {
    d < |tb.keys| && i == Slot(hash, d, |tb.keys|) && Missed(tb, hash, t, d)
  }

  predicate HasKey(tb: Table, t: nat) { Of(t) in tb.keys }

  // Thread t is in one of the tables 0, ..., m.
  ghost predicate Known(tables: seq<Table>, t: nat, m: int)
  {
    exists k :: 0 <= k <= m && k < |tables| && HasKey(tables[k], t)
  }

  // Thread t is in none of the tables above h up to m.
  ghost predicate Absent(tables: seq<Table>, t: nat, h: int, m: int)
  {
    forall k :: h < k <= m && 0 <= k < |tables| ==> !HasKey(tables[k], t)
  }

  ghost predicate KeyOk(s: State, k: nat, i: nat)
    requires Shape(s) && k < |s.tables| && i < |s.tables[k].keys|
  {
    var tb := s.tables[k];
    tb.keys[i].Of? ==>
      var t := tb.keys[i].t;
      && t < |s.threads| && 1 <= s.ticket[t] < Room(|tb.keys|) && s.owner[t].Is?
      && (exists d: nat :: ProbedTo(tb, s.hash[t], t, i, d))
      && (s.tables[k].values[i] == s.owner[t] || s.threads[t] == PutValue(k, s.owner[t], i))
  }

  ghost predicate KeysOk(s: State)
    requires Shape(s)
  {
    forall k, i :: 0 <= k < |s.tables| && 0 <= i < |s.tables[k].keys| ==> KeyOk(s, k, i)
  }

  // The tables' capacities are powers of two, and each is at least twice those before it.
  ghost predicate Doubling(tables: seq<Table>)
  {
    && (forall k, l :: 0 <= k < l < |tables| ==> 2 * |tables[k].keys| <= |tables[l].keys|)
    && (forall k :: 0 <= k < |tables| ==> IsPow2(|tables[k].keys|))
  }

  ghost predicate IsPow2(n: nat) { exists e: nat :: Pow2(e) == n }

  ghost predicate TicketsOk(ticket: seq<nat>, count: nat)
  {
    && (forall t :: 0 <= t < |ticket| ==> ticket[t] <= count)
    && (forall t, u :: 0 <= t < u < |ticket| ==> ticket[t] == 0 || ticket[t] != ticket[u])
  }

  ghost predicate OwnersOk(owner: seq<Owner>, producers: nat)
  {
    && (forall t :: 0 <= t < |owner| ==> owner[t].Is? ==> owner[t].p < producers)
    && (forall t, u :: 0 <= t < u < |owner| ==> owner[t] == NoProducer || owner[t] != owner[u])
  }

  // Thread t has a producer exactly if it is in a table up to m.
  ghost predicate Settled(s: State, t: nat, m: int)
    requires Shape(s) && t < |s.threads|
  {
    && (s.owner[t].Is? <==> s.ticket[t] != 0)
    && (s.owner[t].Is? ==> Known(s.tables, t, m))
  }

  ghost predicate Unregistered(s: State, t: nat, n: nat)
    requires Shape(s) && t < |s.threads|
  {
    s.owner[t] == NoProducer && s.ticket[t] == n >= 1
  }

  ghost predicate Putting(s: State, t: nat, main: nat, v: Owner)
    requires Shape(s) && t < |s.threads| && main < |s.tables|
  {
    v.Is? && s.owner[t] == v && 1 <= s.ticket[t] < Room(|s.tables[main].keys|)
  }

  ghost predicate Holding(s: State, t: nat) { s.lock && s.holder == t }

  ghost predicate PcOk(s: State, t: nat)
    requires Shape(s) && t < |s.threads|
  {
    match s.threads[t]
    case Idle => Settled(s, t, |s.tables| - 1)
    case LoadMain => Settled(s, t, |s.tables| - 1)
    case Probe(main, h, i, d) =>
      Settled(s, t, main) && Absent(s.tables, t, h, main) && ProbedTo(s.tables[h], s.hash[t], t, i, d)
    case ReadValue(main, h, i) =>
      s.tables[h].keys[i] == Of(t) && Absent(s.tables, t, h, main)
    case PutLoad(main, v, i, d) =>
      Putting(s, t, main, v) && !HasKey(s.tables[main], t) && ProbedTo(s.tables[main], s.hash[t], t, i, d)
    case PutCas(main, v, i, d) =>
      Putting(s, t, main, v) && !HasKey(s.tables[main], t) && ProbedTo(s.tables[main], s.hash[t], t, i, d)
    case PutValue(main, v, i) =>
      Putting(s, t, main, v) && s.tables[main].keys[i] == Of(t)
    case AddCount(main) => s.owner[t] == NoProducer && s.ticket[t] == 0
    case CheckSize(main, n) => Unregistered(s, t, n)
    case ReloadLocked(n) => Unregistered(s, t, n) && Holding(s, t)
    case NewTable(main, n) => Unregistered(s, t, n) && Holding(s, t) && main == |s.tables| - 1
    case Unlock(main, n) => Unregistered(s, t, n) && Holding(s, t) && n < Room(|s.tables[main].keys|)
    case CheckRoom(main, n) => Unregistered(s, t, n)
    case Reload(n) => Unregistered(s, t, n)
    case Create(main, n) => Unregistered(s, t, n) && n < Room(|s.tables[main].keys|)
    case Return(v) => v.Is? && s.owner[t] == v && s.ticket[t] != 0 && Known(s.tables, t, |s.tables| - 1)
  }

  ghost predicate Inv(s: State)
  {
    && Shape(s) && Doubling(s.tables) && TicketsOk(s.ticket, s.count) && OwnersOk(s.owner, s.producers)
    && KeysOk(s)
    && forall t :: 0 <= t < |s.threads| ==> PcOk(s, t)
  }

  // ------------------------------------------------------------------------------------
  // What a step of thread t leaves to the others

  ghost predicate TableGrows(a: Table, b: Table, t: nat)
  {
    && |b.keys| == |a.keys| && |b.values| == |a.values| == |a.keys|
    && (forall i {:trigger a.keys[i]} {:trigger b.keys[i]} :: 0 <= i < |a.keys| ==>
          b.keys[i] == a.keys[i] || (a.keys[i] == Empty && b.keys[i] == Of(t)))
    && (forall i :: 0 <= i < |a.keys| ==> b.values[i] == a.values[i] || b.keys[i] == Of(t))
  }

  ghost predicate TablesGrow(a: seq<Table>, b: seq<Table>, t: nat)
  {
    |a| <= |b| && forall k :: 0 <= k < |a| ==> TableGrows(a[k], b[k], t)
  }

  ghost predicate OnlyBy(s: State, s': State, t: nat)
  {
    && |s'.threads| == |s.threads| == |s'.ticket| == |s.ticket| == |s'.owner| == |s.owner| && s'.hash == s.hash
    && (forall u :: 0 <= u < |s.threads| && u != t ==>
          s'.threads[u] == s.threads[u] && s'.ticket[u] == s.ticket[u] && s'.owner[u] == s.owner[u])
    && TablesGrow(s.tables, s'.tables, t)
    && (s.lock && s.holder != t ==> s'.lock && s'.holder == s.holder && |s'.tables| == |s.tables|)
  }

  lemma KeysOfOthers(a: Table, b: Table, t: nat, u: nat, hash: nat, d: nat)
    requires TableGrows(a, b, t) && u != t && |a.keys| > 0
    ensures HasKey(a, u) <==> HasKey(b, u)
    ensures Missed(a, hash, u, d) ==> Missed(b, hash, u, d)
  {
    if Of(u) in a.keys {
      var i :| 0 <= i < |a.keys| && a.keys[i] == Of(u);
      assert b.keys[i] == Of(u);
    }
    if Of(u) in b.keys {
      var i :| 0 <= i < |b.keys| && b.keys[i] == Of(u);
      assert a.keys[i] == Of(u);
    }
    if Missed(a, hash, u, d) {
      forall j | 0 <= j < d ensures Taken(b, Slot(hash, j, |b.keys|), u) {
        assert Taken(a, Slot(hash, j, |a.keys|), u);
      }
    }
  }

  lemma KnownToOthers(a: seq<Table>, b: seq<Table>, t: nat, u: nat, m: int, n: int)
    requires TablesGrow(a, b, t) && u != t && m <= n
    requires forall k :: 0 <= k < |a| ==> |a[k].keys| > 0
    requires Known(a, u, m)
    ensures Known(b, u, n)
  {
    var k :| 0 <= k <= m && k < |a| && HasKey(a[k], u);
    KeysOfOthers(a[k], b[k], t, u, 0, 0);
  }

  lemma AbsentForOthers(a: seq<Table>, b: seq<Table>, t: nat, u: nat, h: int, m: int)
    requires TablesGrow(a, b, t) && u != t && m < |a|
    requires forall k :: 0 <= k < |a| ==> |a[k].keys| > 0
    requires Absent(a, u, h, m)
    ensures Absent(b, u, h, m)
  {
    forall k | h < k <= m && 0 <= k < |b| ensures !HasKey(b[k], u) {
      KeysOfOthers(a[k], b[k], t, u, 0, 0);
    }
  }

  lemma RestingOthersOk(s: State, s': State, t: nat, u: nat)
    requires Inv(s) && Shape(s') && OnlyBy(s, s', t) && u < |s.threads| && u != t
    requires s.threads[u].Idle? || s.threads[u].LoadMain? || s.threads[u].Return?
    ensures PcOk(s', u)
  {
    hide KeysOk, Doubling, TicketsOk, OwnersOk, Known;
    assert PcOk(s, u);
    forall k | 0 <= k < |s.tables| ensures |s.tables[k].keys| > 0 {
      assert TableShape(s.tables[k], k);
    }
    if s.owner[u].Is? {
      KnownToOthers(s.tables, s'.tables, t, u, |s.tables| - 1, |s'.tables| - 1);
    }
  }

  lemma ProbingOthersOk(s: State, s': State, t: nat, u: nat)
    requires Inv(s) && Shape(s') && OnlyBy(s, s', t) && u < |s.threads| && u != t
    requires s.threads[u].Probe? || s.threads[u].ReadValue?
    ensures PcOk(s', u)
  {
    hide KeysOk, Doubling, TicketsOk, OwnersOk, Known, Absent, Missed, TableGrows;
    var pc := s.threads[u];
    assert PcOk(s, u) && PcShape(pc, s.tables);
    forall k | 0 <= k < |s.tables| ensures |s.tables[k].keys| > 0 {
      assert TableShape(s.tables[k], k);
    }
    AbsentForOthers(s.tables, s'.tables, t, u, pc.h, pc.main);
    KeepsSize(s.tables[pc.h], s'.tables[pc.h], t, pc.i);
    if pc.Probe? {
      KeysOfOthers(s.tables[pc.h], s'.tables[pc.h], t, u, s.hash[u], pc.d);
      if s.owner[u].Is? {
        KnownToOthers(s.tables, s'.tables, t, u, pc.main, pc.main);
      }
    }
  }

  lemma PuttingOthersOk(s: State, s': State, t: nat, u: nat)
    requires Inv(s) && Shape(s') && OnlyBy(s, s', t) && u < |s.threads| && u != t
    requires s.threads[u].PutLoad? || s.threads[u].PutCas? || s.threads[u].PutValue?
    ensures PcOk(s', u)
  {
    hide KeysOk, Doubling, TicketsOk, OwnersOk, Known, Absent, Missed, TableGrows;
    var pc := s.threads[u];
    assert PcOk(s, u) && PcShape(pc, s.tables);
    assert TableShape(s.tables[pc.main], pc.main);
    KeepsSize(s.tables[pc.main], s'.tables[pc.main], t, pc.i);
    if !pc.PutValue? {
      KeysOfOthers(s.tables[pc.main], s'.tables[pc.main], t, u, s.hash[u], pc.d);
    }
  }

  lemma OthersOk(s: State, s': State, t: nat, u: nat)
    requires Inv(s) && Shape(s') && OnlyBy(s, s', t) && u < |s.threads| && u != t
    ensures PcOk(s', u)
  {
    hide KeysOk, Doubling, TicketsOk, OwnersOk, Known, Absent, Missed, TableGrows;
    var pc := s.threads[u];
    if pc.Idle? || pc.LoadMain? || pc.Return? {
      RestingOthersOk(s, s', t, u);
    } else if pc.Probe? || pc.ReadValue? {
      ProbingOthersOk(s, s', t, u);
    } else if pc.PutLoad? || pc.PutCas? || pc.PutValue? {
      PuttingOthersOk(s, s', t, u);
    } else {
      assert PcOk(s, u) && PcShape(pc, s.tables);
      if pc.Unlock? || pc.Create? {
        KeepsSize(s.tables[pc.main], s'.tables[pc.main], t, 0);
      }
    }
  }

  lemma KeepsSize(a: Table, b: Table, t: nat, i: nat)
    requires TableGrows(a, b, t)
    ensures |a.keys| == |b.keys| == |b.values|
    ensures i < |a.keys| && a.keys[i] != Empty ==> b.keys[i] == a.keys[i]
  {}

  // A key stays where it is, on the probe path of its thread; the keys of t are left to the caller.
  lemma KeysKept(s: State, s': State, t: nat)
    requires Inv(s) && Shape(s') && OnlyBy(s, s', t)
    requires forall k :: |s.tables| <= k < |s'.tables| ==> forall i :: 0 <= i < |s'.tables[k].keys| ==>
      s'.tables[k].keys[i] == Empty
    requires forall k, i :: 0 <= k < |s.tables| && 0 <= i < |s'.tables[k].keys| && s'.tables[k].keys[i] == Of(t) ==>
      KeyOk(s', k, i)
    ensures KeysOk(s')
  {
    forall k, i | 0 <= k < |s'.tables| && 0 <= i < |s'.tables[k].keys| ensures KeyOk(s', k, i) {
      if k < |s.tables| {
        assert TableGrows(s.tables[k], s'.tables[k], t) && TableShape(s.tables[k], k);
        if s'.tables[k].keys[i].Of? && s'.tables[k].keys[i] != Of(t) {
          assert KeyOk(s, k, i);
          var u := s'.tables[k].keys[i].t;
          var d: nat :| ProbedTo(s.tables[k], s.hash[u], u, i, d);
          KeysOfOthers(s.tables[k], s'.tables[k], t, u, s.hash[u], d);
          assert ProbedTo(s'.tables[k], s'.hash[u], u, i, d);
        }
      }
    }
  }

  // ------------------------------------------------------------------------------------
  // Every step keeps the invariant

  // A step that stores nothing in a table.
  lemma PlainStepOk(s: State, s': State, t: nat)
    requires Inv(s) && t < |s.threads| && !s.threads[t].PutValue?
    requires Shape(s') && OnlyBy(s, s', t) && s'.tables == s.tables && PcOk(s', t)
    requires (s'.owner[t] == s.owner[t] && s'.ticket[t] == s.ticket[t]) || s.owner[t] == NoProducer
    requires TicketsOk(s'.ticket, s'.count) && OwnersOk(s'.owner, s'.producers)
    ensures Inv(s')
  {
    hide PcOk, TicketsOk, OwnersOk, Doubling;
    forall u | 0 <= u < |s'.threads| ensures PcOk(s', u) {
      if u != t {
        OthersOk(s, s', t, u);
      }
    }
    forall k, i | 0 <= k < |s.tables| && 0 <= i < |s'.tables[k].keys| && s'.tables[k].keys[i] == Of(t)
      ensures KeyOk(s', k, i)
    {
      assert KeyOk(s, k, i);
    }
    KeysKept(s, s', t);
  }

  lemma SameTables(s: State, t: nat)
    requires Shape(s)
    ensures TablesGrow(s.tables, s.tables, t)
  {
    forall k | 0 <= k < |s.tables| ensures TableGrows(s.tables[k], s.tables[k], t) {
      assert TableShape(s.tables[k], k);
    }
  }

  lemma GoToOk(s: State, t: nat, pc: Pc)
    requires Inv(s) && t < |s.threads| && !s.threads[t].PutValue? && PcShape(pc, s.tables)
    requires Shape(GoTo(s, t, pc)) ==> PcOk(GoTo(s, t, pc), t)
    ensures Inv(GoTo(s, t, pc))
  {
    var s' := GoTo(s, t, pc);
    assert Shape(s') by {
      forall u | 0 <= u < |s'.threads| ensures PcShape(s'.threads[u], s'.tables) {
        if u != t { assert PcShape(s.threads[u], s.tables); }
      }
    }
    SameTables(s, t);
    hide PcOk, KeysOk, TicketsOk, OwnersOk, Doubling;
    PlainStepOk(s, s', t);
  }

  lemma NotMissed(tb: Table, hash: nat, t: nat, d: nat, e: nat)
    requires |tb.keys| > 0 && Missed(tb, hash, t, e) && !Taken(tb, Slot(hash, d, |tb.keys|), t)
    ensures e <= d
  {}

  // A key of t is at the first position of its probe sequence that is not taken by others.
  lemma KeyIsFirst(s: State, k: nat, t: nat, x: nat, i: nat, d: nat)
    requires Inv(s) && k < |s.tables| && t < |s.threads| && x < |s.tables[k].keys| && s.tables[k].keys[x] == Of(t)
    requires ProbedTo(s.tables[k], s.hash[t], t, i, d) && !Taken(s.tables[k], i, t)
    ensures x == i
  {
    var tb := s.tables[k];
    assert KeyOk(s, k, x);
    var e: nat :| ProbedTo(tb, s.hash[t], t, x, e);
    NotMissed(tb, s.hash[t], t, e, d);
    NotMissed(tb, s.hash[t], t, d, e);
  }

  lemma EmptyMeansAbsent(s: State, k: nat, t: nat, i: nat, d: nat)
    requires Inv(s) && k < |s.tables| && t < |s.threads| && i < |s.tables[k].keys| && s.tables[k].keys[i] == Empty
    requires ProbedTo(s.tables[k], s.hash[t], t, i, d)
    ensures !HasKey(s.tables[k], t)
  {
    var tb := s.tables[k];
    if HasKey(tb, t) {
      var x :| 0 <= x < |tb.keys| && tb.keys[x] == Of(t);
      KeyIsFirst(s, k, t, x, i, d);
    }
  }

  // One probe on.
  lemma NextProbe(tb: Table, hash: nat, t: nat, i: nat, d: nat)
    requires |tb.keys| > 0 && ProbedTo(tb, hash, t, i, d) && Taken(tb, i, t)
    ensures (i + 1) % |tb.keys| == Slot(hash, d + 1, |tb.keys|) && Missed(tb, hash, t, d + 1)
  {
    var m := |tb.keys|;
    var q := (hash + d) / m;
    assert hash + d == m * q + i;
    if i + 1 < m {
      DivModUnique(hash + d + 1, m, q, i + 1);
      DivModUnique(i + 1, m, 0, i + 1);
    } else {
      DivModUnique(hash + d + 1, m, q + 1, 0);
      DivModUnique(i + 1, m, 1, 0);
    }
  }

  // Different probes within one round meet different positions.
  lemma SlotsDiffer(hash: nat, j: nat, l: nat, m: nat)
    requires j < l < m
    ensures Slot(hash, j, m) != Slot(hash, l, m)
  {
    if Slot(hash, j, m) == Slot(hash, l, m) {
      var a, b := (hash + j) / m, (hash + l) / m;
      assert l - j == m * (b - a) by {
        assert hash + j == m * a + Slot(hash, j, m);
        assert hash + l == m * b + Slot(hash, l, m);
      }
      AtLeastOnce(m, b - a);
    }
  }

  // Distinct numbers from 1 up to below n are fewer than n.
  lemma {:induction false} Pigeonhole(f: seq<nat>, n: nat)
    requires forall i :: 0 <= i < |f| ==> 1 <= f[i] < n
    requires forall i, j :: 0 <= i < j < |f| ==> f[i] != f[j]
    ensures |f| > 0 ==> |f| < n
    decreases n
  {
    if |f| > 0 {
      assert 1 <= f[0] < n;
      var m := n - 1;
      if exists i :: 0 <= i < |f| && f[i] == m {
        var i :| 0 <= i < |f| && f[i] == m;
        var g := f[..i] + f[i + 1..];
        assert forall j :: 0 <= j < |g| ==> g[j] == if j < i then f[j] else f[j + 1];
        Pigeonhole(g, m);
      } else {
        Pigeonhole(f, m);
      }
    }
  }

  lemma TakenTicket(s: State, k: nat, t: nat, i: nat)
    requires Inv(s) && k < |s.tables| && Taken(s.tables[k], i, t)
    ensures 1 <= TicketAt(s, k, i) < Room(|s.tables[k].keys|)
  {
    assert KeyOk(s, k, i);
  }

  lemma TicketsDiffer(s: State, k: nat, t: nat, i: nat, j: nat)
    requires Inv(s) && k < |s.tables| && Taken(s.tables[k], i, t) && Taken(s.tables[k], j, t) && i != j
    ensures TicketAt(s, k, i) != TicketAt(s, k, j)
  {
    assert KeyOk(s, k, i) && KeyOk(s, k, j);
    if s.tables[k].keys[i] == s.tables[k].keys[j] {
      KeysUnique(s, k, i, j);
    }
  }

  // The slots t passed hold keys of as many other threads, each with its own ticket, and all
  // those tickets are below three quarters of the capacity.
  lemma MissedIsBounded(s: State, k: nat, t: nat, d: nat)
    requires Inv(s) && k < |s.tables| && t < |s.threads| && d <= |s.tables[k].keys|
    requires |s.tables[k].keys| > 0 && Missed(s.tables[k], s.hash[t], t, d)
    ensures d > 0 ==> d < Room(|s.tables[k].keys|)
  {
    hide KeysOk, PcOk, TicketsOk, OwnersOk, Doubling, TicketAt, Slot, Taken, Room;
    var tb, m := s.tables[k], |s.tables[k].keys|;
    var f := seq(d, j requires 0 <= j < d => TicketAt(s, k, Slot(s.hash[t], j, m)));
    forall j | 0 <= j < |f| ensures 1 <= f[j] < Room(m) {
      assert Taken(tb, Slot(s.hash[t], j, m), t);
      TakenTicket(s, k, t, Slot(s.hash[t], j, m));
    }
    forall j, l | 0 <= j < l < |f| ensures f[j] != f[l] {
      SlotsDiffer(s.hash[t], j, l, m);
      assert Taken(tb, Slot(s.hash[t], j, m), t) && Taken(tb, Slot(s.hash[t], l, m), t);
      TicketsDiffer(s, k, t, Slot(s.hash[t], j, m), Slot(s.hash[t], l, m));
    }
    Pigeonhole(f, Room(m));
  }

  ghost function TicketAt(s: State, k: nat, i: nat): nat
    requires Shape(s) && k < |s.tables|
  {
    var keys := s.tables[k].keys;
    if i < |keys| && keys[i].Of? && keys[i].t < |s.ticket| then s.ticket[keys[i].t] else 0
  }

  // No thread is twice in a table.
  lemma KeysUnique(s: State, k: nat, i: nat, j: nat)
    requires Inv(s) && k < |s.tables| && i < |s.tables[k].keys| && j < |s.tables[k].keys|
    requires s.tables[k].keys[i].Of? && s.tables[k].keys[i] == s.tables[k].keys[j]
    ensures i == j
  {
    var tb := s.tables[k];
    var u := tb.keys[i].t;
    assert KeyOk(s, k, i) && KeyOk(s, k, j);
    var d: nat :| ProbedTo(tb, s.hash[u], u, i, d);
    var e: nat :| ProbedTo(tb, s.hash[u], u, j, e);
    NotMissed(tb, s.hash[u], u, e, d);
    NotMissed(tb, s.hash[u], u, d, e);
  }

  // ------------------------------------------------------------------------------------
  // The steps, one kind at a time

  lemma SizeOf(s: State, k: nat)
    requires Shape(s) && k < |s.tables|
    ensures |s.tables[k].keys| == |s.tables[k].values| >= INITIAL_IMPLICIT_PRODUCER_HASH_SIZE
      && s.tables[k].prev == k - 1
  {
    assert TableShape(s.tables[k], k);
  }

  lemma LoadMainKeepsInv(s: State, t: nat)
    requires Inv(s) && Enabled(s, Go(t)) && s.threads[t].LoadMain?
    ensures Inv(Next(s, Go(t)))
  {
    SizeOf(s, |s.tables| - 1);
    assert PcOk(s, t);
    GoToOk(s, t, Next(s, Go(t)).threads[t]);
  }

  lemma NowhereMeansNew(s: State, t: nat, main: nat)
    requires Shape(s) && t < |s.threads| && Settled(s, t, main) && Absent(s.tables, t, -1, main)
    ensures s.owner[t] == NoProducer && s.ticket[t] == 0
  {
    assert !Known(s.tables, t, main);
  }

  lemma ProbeKeepsInv(s: State, t: nat)
    requires Inv(s) && Enabled(s, Go(t)) && s.threads[t].Probe?
    ensures Inv(Next(s, Go(t)))
  {
    hide KeysOk, TicketsOk, OwnersOk, Doubling, HasKey;
    var pc := s.threads[t];
    var tb := s.tables[pc.h];
    SizeOf(s, pc.h);
    assert PcOk(s, t) && PcShape(pc, s.tables);
    if tb.keys[pc.i] == Empty {
      EmptyMeansAbsent(s, pc.h, t, pc.i, pc.d);
      if pc.h > 0 {
        SizeOf(s, pc.h - 1);
      } else {
        NowhereMeansNew(s, t, pc.main);
      }
    } else if tb.keys[pc.i] != Of(t) {
      NextProbe(tb, s.hash[t], t, pc.i, pc.d);
      MissedIsBounded(s, pc.h, t, pc.d + 1);
    }
    GoToOk(s, t, Next(s, Go(t)).threads[t]);
  }

  lemma RoomGrows(s: State, h: nat, main: nat)
    requires Inv(s) && h <= main < |s.tables|
    ensures Room(|s.tables[h].keys|) <= Room(|s.tables[main].keys|)
  {
    if h < main {
      assert 2 * |s.tables[h].keys| <= |s.tables[main].keys|;
    }
  }

  lemma ReadValueKeepsInv(s: State, t: nat)
    requires Inv(s) && Enabled(s, Go(t)) && s.threads[t].ReadValue?
    ensures Inv(Next(s, Go(t)))
  {
    hide TicketsOk, OwnersOk, Doubling;
    var pc := s.threads[t];
    SizeOf(s, pc.h);
    SizeOf(s, pc.main);
    assert PcOk(s, t) && PcShape(pc, s.tables);
    assert KeyOk(s, pc.h, pc.i);
    RoomGrows(s, pc.h, pc.main);
    assert HasKey(s.tables[pc.h], t);
    GoToOk(s, t, Next(s, Go(t)).threads[t]);
  }

  lemma PutOnKeepsInv(s: State, t: nat)
    requires Inv(s) && Enabled(s, Go(t))
    requires s.threads[t].PutLoad?
      || (s.threads[t].PutCas? && s.tables[s.threads[t].main].keys[s.threads[t].i] != Empty)
    ensures Inv(Next(s, Go(t)))
  {
    hide KeysOk, TicketsOk, OwnersOk, Doubling;
    var pc := s.threads[t];
    var tb := s.tables[pc.main];
    SizeOf(s, pc.main);
    assert PcOk(s, t) && PcShape(pc, s.tables);
    if tb.keys[pc.i] != Empty {
      NextProbe(tb, s.hash[t], t, pc.i, pc.d);
      MissedIsBounded(s, pc.main, t, pc.d + 1);
    }
    GoToOk(s, t, Next(s, Go(t)).threads[t]);
  }

  lemma SizeChecksKeepInv(s: State, t: nat)
    requires Inv(s) && Enabled(s, Go(t))
    requires var pc := s.threads[t];
      pc.CheckSize? || pc.ReloadLocked? || pc.Unlock? || pc.CheckRoom? || pc.Reload? || pc.Return?
    ensures Inv(Next(s, Go(t)))
  {
    hide Doubling, KeysOk, TicketsOk, OwnersOk, Known;
    var s' := Next(s, Go(t));
    assert PcOk(s, t);
    SizeOf(s, |s.tables| - 1);
    SameTables(s, t);
    SameTablesShape(s, s', t);
    PlainStepOk(s, s', t);
  }

  lemma SameTablesShape(s: State, s': State, t: nat)
    requires Shape(s) && s'.tables == s.tables && t < |s.threads|
    requires |s'.hash| == |s'.ticket| == |s'.owner| == |s'.threads| == |s.threads|
    requires forall u :: 0 <= u < |s.threads| && u != t ==> s'.threads[u] == s.threads[u]
    requires PcShape(s'.threads[t], s.tables)
    ensures Shape(s')
  {
    forall u | 0 <= u < |s'.threads| ensures PcShape(s'.threads[u], s'.tables) {
      if u != t { assert PcShape(s.threads[u], s.tables); }
    }
  }

  lemma AddCountKeepsInv(s: State, t: nat)
    requires Inv(s) && Enabled(s, Go(t)) && s.threads[t].AddCount?
    ensures Inv(Next(s, Go(t)))
  {
    hide Doubling, KeysOk, OwnersOk;
    var s' := Next(s, Go(t));
    assert PcOk(s, t) && PcShape(s.threads[t], s.tables);
    SameTables(s, t);
    SameTablesShape(s, s', t);
    PlainStepOk(s, s', t);
  }

  lemma CreateKeepsInv(s: State, t: nat)
    requires Inv(s) && Enabled(s, Go(t)) && s.threads[t].Create?
    ensures Inv(Next(s, Go(t)))
  {
    hide Doubling, KeysOk, TicketsOk;
    var pc := s.threads[t];
    var s' := Next(s, Go(t));
    assert PcOk(s, t) && PcShape(pc, s.tables);
    SizeOf(s, pc.main);
    NotYetInTable(s, t, pc.main);
    SameTables(s, t);
    SameTablesShape(s, s', t);
    PlainStepOk(s, s', t);
  }

  lemma NotYetInTable(s: State, t: nat, k: nat)
    requires Inv(s) && t < |s.threads| && k < |s.tables| && s.owner[t] == NoProducer
    ensures !HasKey(s.tables[k], t)
  {
    if HasKey(s.tables[k], t) {
      var x :| 0 <= x < |s.tables[k].keys| && s.tables[k].keys[x] == Of(t);
      KeyHasOwner(s, k, x);
    }
  }

  lemma KeyHasOwner(s: State, k: nat, i: nat)
    requires Inv(s) && k < |s.tables| && i < |s.tables[k].keys| && s.tables[k].keys[i].Of?
    ensures var t := s.tables[k].keys[i].t; t < |s.threads| && s.owner[t].Is?
  {
    assert KeyOk(s, k, i);
  }

  lemma StepOk(s: State, s': State, t: nat)
    requires Inv(s) && t < |s.threads| && Shape(s') && OnlyBy(s, s', t) && PcOk(s', t) && KeysOk(s')
    requires Doubling(s'.tables) && TicketsOk(s'.ticket, s'.count) && OwnersOk(s'.owner, s'.producers)
    ensures Inv(s')
  {
    hide PcOk, KeysOk, Doubling, TicketsOk, OwnersOk;
    forall u | 0 <= u < |s'.threads| ensures PcOk(s', u) {
      if u != t {
        OthersOk(s, s', t, u);
      }
    }
  }

  lemma StoreShape(s: State, t: nat, main: nat, tb: Table, pc: Pc)
    requires Shape(s) && t < |s.threads| && main < |s.tables| && PcShape(pc, s.tables)
    requires |tb.keys| == |s.tables[main].keys| && |tb.values| == |s.tables[main].values|
    requires tb.prev == s.tables[main].prev
    ensures Shape(GoTo(s.(tables := s.tables[main := tb]), t, pc))
  {
    var s' := GoTo(s.(tables := s.tables[main := tb]), t, pc);
    forall k | 0 <= k < |s'.tables| ensures TableShape(s'.tables[k], k) && |s'.tables[k].keys| == |s.tables[k].keys| {
      assert TableShape(s.tables[k], k);
    }
    forall u | 0 <= u < |s'.threads| ensures PcShape(s'.threads[u], s'.tables) {
      if u != t { assert PcShape(s.threads[u], s.tables); }
    }
  }

  lemma StoreGrows(s: State, t: nat, main: nat, tb: Table)
    requires Shape(s) && main < |s.tables| && TableGrows(s.tables[main], tb, t)
    ensures TablesGrow(s.tables, s.tables[main := tb], t)
  {
    SameTables(s, t);
  }

  lemma StoreDoubling(tables: seq<Table>, main: nat, tb: Table)
    requires Doubling(tables) && main < |tables| && |tb.keys| == |tables[main].keys|
    ensures Doubling(tables[main := tb])
  {}

  lemma PutKeyKeepsInv(s: State, t: nat)
    requires Inv(s) && Enabled(s, Go(t)) && s.threads[t].PutCas?
    requires s.tables[s.threads[t].main].keys[s.threads[t].i] == Empty
    ensures Inv(Next(s, Go(t)))
  {
    hide TicketsOk, OwnersOk, Doubling;
    var pc := s.threads[t];
    var s' := Next(s, Go(t));
    assert PcOk(s, t) && PcShape(pc, s.tables);
    SizeOf(s, pc.main);
    StoreShape(s, t, pc.main, s'.tables[pc.main], s'.threads[t]);
    assert TableGrows(s.tables[pc.main], s'.tables[pc.main], t);
    StoreGrows(s, t, pc.main, s'.tables[pc.main]);
    StoreDoubling(s.tables, pc.main, s'.tables[pc.main]);
    forall k, i | 0 <= k < |s.tables| && 0 <= i < |s'.tables[k].keys| && s'.tables[k].keys[i] == Of(t)
      ensures KeyOk(s', k, i)
    {
      if k == pc.main {
        assert Of(t) !in s.tables[k].keys;
        assert i == pc.i;
        MissedKept(s.tables[k], s'.tables[k], s.hash[t], t, pc.d);
        assert ProbedTo(s'.tables[k], s.hash[t], t, i, pc.d);
      } else {
        assert KeyOk(s, k, i);
      }
    }
    KeysKept(s, s', t);
    StepOk(s, s', t);
  }

  // A key of t itself does not move t's probes.
  lemma MissedKept(a: Table, b: Table, hash: nat, t: nat, d: nat)
    requires |a.keys| > 0 && TableGrows(a, b, t) && Missed(a, hash, t, d)
    ensures Missed(b, hash, t, d)
  {
    forall j | 0 <= j < d ensures Taken(b, Slot(hash, j, |b.keys|), t) {
      assert Taken(a, Slot(hash, j, |a.keys|), t);
    }
  }

  lemma PutValueKeepsInv(s: State, t: nat)
    requires Inv(s) && Enabled(s, Go(t)) && s.threads[t].PutValue?
    ensures Inv(Next(s, Go(t)))
  {
    hide TicketsOk, OwnersOk, Doubling;
    var pc := s.threads[t];
    var s' := Next(s, Go(t));
    assert PcOk(s, t) && PcShape(pc, s.tables);
    SizeOf(s, pc.main);
    StoreShape(s, t, pc.main, s'.tables[pc.main], s'.threads[t]);
    StoreGrows(s, t, pc.main, s'.tables[pc.main]);
    StoreDoubling(s.tables, pc.main, s'.tables[pc.main]);
    forall k, i | 0 <= k < |s.tables| && 0 <= i < |s'.tables[k].keys| && s'.tables[k].keys[i] == Of(t)
      ensures KeyOk(s', k, i)
    {
      assert KeyOk(s, k, i);
      var d: nat :| ProbedTo(s.tables[k], s.hash[t], t, i, d);
      assert ProbedTo(s'.tables[k], s.hash[t], t, i, d);
    }
    assert HasKey(s'.tables[pc.main], t);
    KeysKept(s, s', t);
    StepOk(s, s', t);
  }

  lemma {:induction false} LargerIsPow2(capacity: nat, n: nat)
    requires capacity > 0 && IsPow2(capacity)
    ensures IsPow2(Larger(capacity, n))
    decreases n - capacity / 2
  {
    if n >= capacity / 2 {
      var e: nat :| Pow2(e) == capacity;
      assert Pow2(e + 1) == capacity * 2;
      LargerIsPow2(capacity * 2, n);
    }
  }

  lemma AppendDoubling(s: State, tb: Table)
    requires Shape(s) && Doubling(s.tables) && IsPow2(|tb.keys|) && |tb.keys| >= 2 * |s.tables[|s.tables| - 1].keys|
    ensures Doubling(s.tables + [tb])
  {
    var n := |s.tables|;
    var ts := s.tables + [tb];
    forall k, l | 0 <= k < l < |ts| ensures 2 * |ts[k].keys| <= |ts[l].keys| {
      if l == n && k < n - 1 {
        assert 2 * |ts[k].keys| <= |s.tables[n - 1].keys|;
      }
    }
  }

  lemma NewTableKeepsInv(s: State, t: nat)
    requires Inv(s) && Enabled(s, Go(t)) && s.threads[t].NewTable?
    ensures Inv(Next(s, Go(t)))
  {
    hide TicketsOk, OwnersOk, Doubling, IsPow2;
    var pc := s.threads[t];
    var s' := Next(s, Go(t));
    assert PcOk(s, t);
    SizeOf(s, pc.main);
    DoublePow2(s, pc.main);
    LargerIsPow2(|s.tables[pc.main].keys| * 2, pc.n);
    AppendDoubling(s, s'.tables[|s.tables|]);
    SameTables(s, t);
    assert Shape(s') by {
      forall k | 0 <= k < |s'.tables| ensures TableShape(s'.tables[k], k) {
        if k < |s.tables| { assert TableShape(s.tables[k], k); }
      }
      forall u | 0 <= u < |s'.threads| ensures PcShape(s'.threads[u], s'.tables) {
        if u != t { assert PcShape(s.threads[u], s.tables); }
      }
    }
    forall k, i | 0 <= k < |s.tables| && 0 <= i < |s'.tables[k].keys| && s'.tables[k].keys[i] == Of(t)
      ensures KeyOk(s', k, i)
    {
      assert KeyOk(s, k, i);
    }
    KeysKept(s, s', t);
    StepOk(s, s', t);
  }

  lemma DoublePow2(s: State, k: nat)
    requires Inv(s) && k < |s.tables|
    ensures IsPow2(|s.tables[k].keys| * 2)
  {
    var e: nat :| Pow2(e) == |s.tables[k].keys|;
    assert Pow2(e + 1) == |s.tables[k].keys| * 2;
  }

  lemma StepKeepsInv(s: State, a: Act)
    requires Inv(s) && Enabled(s, a)
    ensures Inv(Next(s, a))
  {
    match a
    case Call(t) =>
      assert PcOk(s, t);
      GoToOk(s, t, LoadMain);
    case Go(t) =>
      match s.threads[t]
      case LoadMain => LoadMainKeepsInv(s, t);
      case Probe(_, _, _, _) => ProbeKeepsInv(s, t);
      case ReadValue(_, _, _) => ReadValueKeepsInv(s, t);
      case PutLoad(_, _, _, _) => PutOnKeepsInv(s, t);
      case PutCas(main, _, i, _) =>
        assert PcShape(s.threads[t], s.tables);
        if s.tables[main].keys[i] == Empty { PutKeyKeepsInv(s, t); } else { PutOnKeepsInv(s, t); }
      case PutValue(_, _, _) => PutValueKeepsInv(s, t);
      case NewTable(_, _) => NewTableKeepsInv(s, t);
      case AddCount(_) => AddCountKeepsInv(s, t);
      case Create(_, _) => CreateKeepsInv(s, t);
      case _ => SizeChecksKeepInv(s, t);
  }

  // ------------------------------------------------------------------------------------
  // Whole runs

  ghost predicate StepsTo(s: State, a: Act, s': State) { Shape(s) && Enabled(s, a) && s' == Next(s, a) }

  ghost predicate Behaviour(ss: seq<State>, acts: seq<Act>)
  {
    && |ss| == |acts| + 1
    && Init(ss[0])
    && forall i :: 0 <= i < |acts| ==> StepsTo(ss[i], acts[i], ss[i + 1])
  }

  lemma InitInv(s: State)
    requires Init(s)
    ensures Inv(s)
  {
    assert Pow2(5) == INITIAL_IMPLICIT_PRODUCER_HASH_SIZE by {
      assert Pow2(1) == 2 && Pow2(2) == 4 && Pow2(3) == 8 && Pow2(4) == 16;
    }
    assert TableShape(s.tables[0], 0);
    forall t | 0 <= t < |s.threads| ensures PcShape(s.threads[t], s.tables) && PcOk(s, t) {}
  }

  lemma {:induction false} AlwaysInv(ss: seq<State>, acts: seq<Act>, i: nat)
    requires Behaviour(ss, acts) && i < |ss|
    ensures Inv(ss[i])
  {
    hide Inv, Init, Next, Enabled;
    if i == 0 {
      InitInv(ss[0]);
    } else {
      AlwaysInv(ss, acts, i - 1);
      assert StepsTo(ss[i - 1], acts[i - 1], ss[i]);
      StepKeepsInv(ss[i - 1], acts[i - 1]);
    }
  }

  // A producer once bound to a thread stays bound to it.
  lemma BindingStays(s: State, a: Act, t: nat)
    requires Inv(s) && Enabled(s, a) && t < |s.threads| && s.owner[t].Is?
    ensures |Next(s, a).owner| == |s.owner| && Next(s, a).owner[t] == s.owner[t]
  {
    if a.Go? {
      assert PcOk(s, a.t);
    }
    hide KeysOk, Doubling, OwnersOk, TicketsOk;
  }

  lemma Sizes(s: State)
    requires Inv(s)
    ensures |s.owner| == |s.threads|
  {}

  lemma {:induction false} BindingLasts(ss: seq<State>, acts: seq<Act>, i: nat, j: nat, t: nat)
    requires Behaviour(ss, acts) && i <= j < |ss| && t < |ss[i].owner| && ss[i].owner[t].Is?
    ensures t < |ss[j].owner| == |ss[j].threads| && ss[j].owner[t] == ss[i].owner[t]
    decreases j
  {
    hide Inv, Init, Next, Enabled, Shape;
    AlwaysInv(ss, acts, j);
    Sizes(ss[j]);
    if i < j {
      BindingLasts(ss, acts, i, j - 1, t);
      AlwaysInv(ss, acts, j - 1);
      assert StepsTo(ss[j - 1], acts[j - 1], ss[j]);
      BindingStays(ss[j - 1], acts[j - 1], t);
    }
  }

  // Every call a thread ever makes returns one and the same producer.
  lemma OneProducerForEver(ss: seq<State>, acts: seq<Act>, i: nat, j: nat, t: nat)
    requires Behaviour(ss, acts) && i <= j < |ss| && t < |ss[i].threads| && t < |ss[j].threads|
    requires ss[i].threads[t].Return? && ss[j].threads[t].Return?
    ensures ss[i].threads[t].v.Is? && ss[i].threads[t].v == ss[j].threads[t].v
  {
    AlwaysInv(ss, acts, i);
    AlwaysInv(ss, acts, j);
    assert PcOk(ss[i], t) && PcOk(ss[j], t);
    hide Inv, Behaviour;
    BindingLasts(ss, acts, i, j, t);
  }

  // No two threads share one.
  lemma ProducersAreNotShared(ss: seq<State>, acts: seq<Act>, i: nat, j: nat, t: nat, u: nat)
    requires Behaviour(ss, acts) && i <= j < |ss| && t < |ss[i].threads| && u < |ss[j].threads| && t != u
    requires ss[i].threads[t].Return? && ss[j].threads[u].Return?
    ensures ss[i].threads[t].v != ss[j].threads[u].v
  {
    AlwaysInv(ss, acts, i);
    AlwaysInv(ss, acts, j);
    assert PcOk(ss[i], t) && PcOk(ss[j], u);
    BindingLasts(ss, acts, i, j, t);
  }

  ghost predicate Creates(s: State, a: Act, t: nat) { a == Go(t) && t < |s.threads| && s.threads[t].Create? }

  // A thread that has returned from a call never creates another producer: later calls find it.
  lemma LaterCallsFindIt(ss: seq<State>, acts: seq<Act>, i: nat, j: nat, t: nat)
    requires Behaviour(ss, acts) && i <= j < |acts| && t < |ss[i].threads| && ss[i].threads[t].Return?
    ensures !Creates(ss[j], acts[j], t)
  {
    AlwaysInv(ss, acts, i);
    AlwaysInv(ss, acts, j);
    assert PcOk(ss[i], t);
    BindingLasts(ss, acts, i, j, t);
    assert PcOk(ss[j], t);
  }

  // Every probe loop is short: it has passed fewer than three quarters of the slots.
  lemma ProbesAreShort(ss: seq<State>, acts: seq<Act>, i: nat, t: nat)
    requires Behaviour(ss, acts) && i < |ss| && t < |ss[i].threads|
    ensures var s, pc := ss[i], ss[i].threads[t];
      && t < |s.hash|
      && (pc.Probe? ==>
            pc.h < |s.tables| && pc.d < Room(|s.tables[pc.h].keys|)
            && pc.i == Slot(s.hash[t], pc.d, |s.tables[pc.h].keys|))
      && (pc.PutLoad? || pc.PutCas? ==>
            pc.main < |s.tables| && pc.d < Room(|s.tables[pc.main].keys|)
              && pc.i == Slot(s.hash[t], pc.d, |s.tables[pc.main].keys|))
  {
    AlwaysInv(ss, acts, i);
    var s, pc := ss[i], ss[i].threads[t];
    assert PcOk(s, t) && PcShape(pc, s.tables);
    if pc.Probe? {
      SizeOf(s, pc.h);
      MissedIsBounded(s, pc.h, t, pc.d);
    } else if pc.PutLoad? || pc.PutCas? {
      SizeOf(s, pc.main);
      MissedIsBounded(s, pc.main, t, pc.d);
    }
  }

  // No table is ever full.
  lemma SomeSlotIsFree(ss: seq<State>, acts: seq<Act>, i: nat, k: nat)
    requires Behaviour(ss, acts) && i < |ss| && k < |ss[i].tables|
    ensures Empty in ss[i].tables[k].keys
  {
    AlwaysInv(ss, acts, i);
    var s := ss[i];
    var keys := s.tables[k].keys;
    SizeOf(s, k);
    if Empty !in keys {
      var f := seq(|keys|, x requires 0 <= x < |keys| => TicketAt(s, k, x));
      forall x | 0 <= x < |f| ensures 1 <= f[x] < Room(|keys|) {
        assert KeyOk(s, k, x);
      }
      forall x, y | 0 <= x < y < |f| ensures f[x] != f[y] {
        assert KeyOk(s, k, x) && KeyOk(s, k, y);
        if keys[x] == keys[y] {
          KeysUnique(s, k, x, y);
        }
      }
      Pigeonhole(f, Room(|keys|));
    }
  }

  // The thread that takes the resize lock has room afterwards, so it never waits.
  lemma ResizerHasRoom(ss: seq<State>, acts: seq<Act>, i: nat, t: nat)
    requires Behaviour(ss, acts) && i < |acts| && acts[i] == Go(t) && t < |ss[i].threads| && ss[i].threads[t].Unlock?
    ensures var s := ss[i + 1];
      && t < |s.threads| && s.threads[t].CheckRoom? && s.threads[t].main < |s.tables|
      && s.threads[t].n < Room(|s.tables[s.threads[t].main].keys|) && !s.lock
  {
    AlwaysInv(ss, acts, i);
    assert PcOk(ss[i], t) && PcShape(ss[i].threads[t], ss[i].tables);
    assert StepsTo(ss[i], acts[i], ss[i + 1]);
  }
}
