/**
 The USB thread's side of class UsbTvDriver: from a USB request block to frames on the process
 queue.  Module Reassembly says what each method computes.

 The process queue is the sequence of frames put on it; whether it takes one is decided by the
 caller's `accept` (it needs memory).  Other threads return frames to the pool while the USB
 thread looks for a free one: `unlocks[k]` are the pool indices unlocked before its k-th test,
 and the stream becomes inactive after |unlocks| tests.
 */
module UsbDriver {
  import opened Counting
  import opened Reassembly
  import G = Geometry
  import P = Packets

  class Frame {
    const buffer: array<Byte>
    var flags: Flag
    var lock: bool

    constructor (size: nat)
      ensures fresh(buffer) && buffer.Length == size && flags == NoFlag && !lock
    {
      buffer := new Byte[size];
      flags := NoFlag;
      lock := false;
    }
  }

  // ------------------------------------------------------------------------------------
  // fetchFrameFromPool as a function of the locks

  datatype Fetched = Fetched(index: nat, owned: bool, locks: seq<bool>)

  function Unlock(locks: seq<bool>, returned: set<nat>): (r: seq<bool>)
    ensures |r| == |locks| && forall i :: 0 <= i < |r| ==> r[i] == (locks[i] && i !in returned)
  {
    seq(|locks|, i requires 0 <= i < |locks| => locks[i] && i !in returned)
  }

  function Fetch(locks: seq<bool>, unlocks: seq<set<nat>>, index: nat): (r: Fetched)
    requires index < |locks|
    ensures r.index < |locks| == |r.locks|
    decreases |unlocks|
  {
    if unlocks == [] then Fetched(0, false, locks)
    else
      var seen := Unlock(locks, unlocks[0]);
      if !seen[index] then Fetched(index, true, seen[index := true])
      else Fetch(seen, unlocks[1..], NextIndex(index, |locks|))
  }

  // A frame fetched while the stream is active was free: not locked to begin with, or returned
  // meanwhile; it is locked now, and no other lock was set.  An inactive stream yields frame 0
  // without owning it.
  lemma {:induction false} FetchTakesFreeFrame(locks: seq<bool>, unlocks: seq<set<nat>>, index: nat)
    requires index < |locks|
    ensures var r := Fetch(locks, unlocks, index);
      && (r.owned ==> r.locks[r.index] && (!locks[r.index] || exists k :: 0 <= k < |unlocks| && r.index in unlocks[k]))
      && (!r.owned ==> r.index == 0)
      && (forall i :: 0 <= i < |locks| && r.locks[i] && (i != r.index || !r.owned) ==> locks[i])
    decreases |unlocks|
  {
    if unlocks != [] {
      var seen := Unlock(locks, unlocks[0]);
      if seen[index] {
        var rest := unlocks[1..];
        FetchTakesFreeFrame(seen, rest, NextIndex(index, |locks|));
        var r := Fetch(locks, unlocks, index);
        if r.owned && locks[r.index] {
          if r.index !in unlocks[0] {
            var k :| 0 <= k < |rest| && r.index in rest[k];
            assert rest[k] == unlocks[k + 1];
          }
        }
      } else {
        assert locks[index] ==> index in unlocks[0];
      }
    }
  }

  // One turn of the search.
  lemma {:induction false} FetchTurn(locks: seq<bool>, unlocks: seq<set<nat>>, k: nat, index: nat)
    requires index < |locks| && k < |unlocks|
    ensures var seen := Unlock(locks, unlocks[k]);
      Fetch(locks, unlocks[k..], index) ==
        if !seen[index] then Fetched(index, true, seen[index := true])
        else Fetch(seen, unlocks[k + 1..], NextIndex(index, |locks|))
  {
    assert unlocks[k..][1..] == unlocks[k + 1..];
  }

  lemma {:induction false} FetchNothing(locks: seq<bool>, index: nat)
    requires index < |locks|
    ensures Fetch(locks, [], index) == Fetched(0, false, locks)
  {}

  // Nothing is locked: the search ends with its first test.
  lemma {:induction false} FetchAtOnce(locks: seq<bool>, unlocks: seq<set<nat>>)
    requires |locks| > 0 && unlocks != [] && forall i :: 0 <= i < |locks| ==> !locks[i]
    ensures var r := Fetch(locks, unlocks, 0);
      r.owned && r.index == 0 && forall i :: 0 <= i < |locks| ==> r.locks[i] == (i == 0)
  {}

  // How far a position is ahead of the search.
  function Ahead(index: nat, i: nat, size: nat): nat
    requires index < size && i < size
  {
    if i >= index then i - index else i + size - index
  }

  // A free frame is found within one round.
  lemma {:induction false} FetchFindsFreeFrame(locks: seq<bool>, unlocks: seq<set<nat>>, index: nat, i: nat)
    requires index < |locks| && i < |locks| && !locks[i] && |unlocks| > Ahead(index, i, |locks|)
    ensures Fetch(locks, unlocks, index).owned
    decreases |unlocks|
  {
    var seen := Unlock(locks, unlocks[0]);
    if seen[index] {
      FetchFindsFreeFrame(seen, unlocks[1..], NextIndex(index, |locks|), i);
    }
  }

  // ------------------------------------------------------------------------------------
  // USB request blocks

  datatype Option<T> = None | Some(value: T)

  datatype IsoPacket = IsoPacket(length: nat, actualLength: nat, ok: bool)

  // The 1024 bytes of a packet, if its header is in order.
  function Decode(raw: seq<Byte>): Option<Packet>
    requires |raw| == G.PACKET_SIZE
  {
    var w := P.Word(raw[0], raw[1], raw[2], raw[3]);
    if P.FrameOk(w) then
      Some(Packet(P.FrameId(w) as nat, P.PacketNo(w) as nat, P.Odd(w), raw[4..4 + G.PAYLOAD_SIZE]))
    else None
  }

  lemma DecodedIsGood(raw: seq<Byte>)
    requires |raw| == G.PACKET_SIZE && Decode(raw).Some?
    ensures GoodPacket(Decode(raw).value)
  {}

  function OffsetOf(descs: seq<IsoPacket>, i: nat): nat
    requires i <= |descs|
  {
    if i == 0 then 0 else OffsetOf(descs, i - 1) + descs[i - 1].length
  }

  // The kernel fills in no more than was asked for.
  ghost predicate DescsFit(descs: seq<IsoPacket>, size: nat)
  {
    && (forall i :: 0 <= i < |descs| ==> descs[i].actualLength <= descs[i].length)
    && OffsetOf(descs, |descs|) <= size
  }

  lemma {:induction false} OffsetsFit(descs: seq<IsoPacket>, size: nat, i: nat)
    requires DescsFit(descs, size) && i < |descs|
    ensures OffsetOf(descs, i) + descs[i].actualLength <= size
    decreases |descs| - i
  {
    OffsetsGrow(descs, i + 1, |descs|);
  }

  lemma {:induction false} OffsetsGrow(descs: seq<IsoPacket>, i: nat, j: nat)
    requires i <= j <= |descs|
    ensures OffsetOf(descs, i) <= OffsetOf(descs, j)
    decreases j
  {
    if i < j {
      OffsetsGrow(descs, i, j - 1);
    }
  }

  // The good packets among the first n whole ones from an offset on.
  function PacketsFrom(data: seq<Byte>, at: nat, n: nat): seq<Packet>
    requires at + n * G.PACKET_SIZE <= |data|
  {
    if n == 0 then [] else
      var raw := data[at + (n - 1) * G.PACKET_SIZE..at + n * G.PACKET_SIZE];
      PacketsFrom(data, at, n - 1) + match Decode(raw) { case None => [] case Some(p) => [p] }
  }

  function Wholes(d: IsoPacket): nat { if d.ok then d.actualLength / G.PACKET_SIZE else 0 }

  // The packets of the first n isochronous packets of a request block.
  function PacketsOf(data: seq<Byte>, descs: seq<IsoPacket>, n: nat): seq<Packet>
    requires DescsFit(descs, |data|) && n <= |descs|
  {
    if n == 0 then [] else
      OffsetsFit(descs, |data|, n - 1);
      PacketsOf(data, descs, n - 1) + PacketsFrom(data, OffsetOf(descs, n - 1), Wholes(descs[n - 1]))
  }

  // What the surroundings do with a packet: whether the queue takes a frame, and the frames other
  // threads return while the USB thread looks for the next one.
  datatype Choice = Choice(accept: bool, unlocks: seq<set<nat>>)

  // Which frame of the pool the USB thread fills, and the locks.
  datatype Hold = Hold(input: nat, locks: seq<bool>)

  // After k packets, by their events.
  function HoldAfter(h: Hold, choices: seq<Choice>, events: seq<Event>, k: nat): (r: Hold)
    requires h.input < |h.locks| && k <= |events| <= |choices|
    ensures r.input < |r.locks| == |h.locks|
  {
    if k == 0 then h
    else
      var r := HoldAfter(h, choices, events, k - 1);
      if events[k - 1].Queued? then
        var f := Fetch(r.locks, choices[k - 1].unlocks, 0);
        Hold(f.index, f.locks)
      else r
  }

  // The frames queued with the first k packets.
  function QueuedWith(h: Hold, choices: seq<Choice>, events: seq<Event>, k: nat): (r: seq<nat>)
    requires h.input < |h.locks| && k <= |events| <= |choices|
    ensures forall i :: 0 <= i < |r| ==> r[i] < |h.locks|
  {
    if k == 0 then []
    else
      QueuedWith(h, choices, events, k - 1)
      + if events[k - 1].Queued? then [HoldAfter(h, choices, events, k - 1).input] else []
  }

  lemma {:induction false} HoldPrefix(h: Hold, choices: seq<Choice>, events: seq<Event>, e: Event, k: nat)
    requires h.input < |h.locks| && k <= |events| < |choices|
    ensures HoldAfter(h, choices, events + [e], k) == HoldAfter(h, choices, events, k)
    ensures QueuedWith(h, choices, events + [e], k) == QueuedWith(h, choices, events, k)
  {
    if k > 0 {
      HoldPrefix(h, choices, events, e, k - 1);
    }
  }

  // The environments of module Reassembly are the choices of the surroundings; a frame fetched
  // while the stream is active carries FRAME_START.
  ghost predicate Surroundings(h: Hold, events: seq<Event>, envs: seq<Env>, choices: seq<Choice>)
    requires h.input < |h.locks| && |events| == |envs| <= |choices|
  {
    forall k :: 0 <= k < |envs| ==>
      && envs[k].accept == choices[k].accept
      && (events[k].Queued? && Fetch(HoldAfter(h, choices, events, k).locks, choices[k].unlocks, 0).owned
          ==> envs[k].flag == Start)
  }

  // The frame queued with packet k has not become the input frame again.
  ghost predicate StillQueued(h: Hold, events: seq<Event>, choices: seq<Choice>, k: nat)
    requires h.input < |h.locks| && k < |events| <= |choices|
  {
    && events[k].Queued?
    && forall j :: k < j <= |events| ==>
      HoldAfter(h, choices, events, j).input != HoldAfter(h, choices, events, k).input
  }

  // What the frames of the pool carry.
  datatype Contents = Contents(flags: seq<Flag>, buffers: seq<seq<Byte>>)

  // The frame queued with packet k is as its event says.
  ghost predicate Tied(h: Hold, events: seq<Event>, choices: seq<Choice>, k: nat, c: Contents)
    requires h.input < |h.locks| == |c.flags| == |c.buffers| && k < |events| <= |choices|
  {
    StillQueued(h, events, choices, k) ==>
      var i := HoldAfter(h, choices, events, k).input;
      c.flags[i] == events[k].flag && c.buffers[i] == events[k].buffer
  }

  // Only frames that were or are the input frame have changed.
  ghost predicate OthersKept(c: Contents, d: Contents, before: nat, after: nat)
  {
    && |c.flags| == |d.flags| && |c.buffers| == |d.buffers|
    && (forall i :: 0 <= i < |c.flags| && i != before && i != after ==> d.flags[i] == c.flags[i])
    && (forall i :: 0 <= i < |c.buffers| && i != before ==> d.buffers[i] == c.buffers[i])
  }

  lemma TiedStill(h: Hold, events: seq<Event>, e: Event, choices: seq<Choice>, k: nat, c: Contents, d: Contents)
    requires h.input < |h.locks| == |c.flags| == |c.buffers| && k < |events| < |choices|
    requires Tied(h, events, choices, k, c)
    requires OthersKept(c, d, HoldAfter(h, choices, events, |events|).input,
      HoldAfter(h, choices, events + [e], |events| + 1).input)
    ensures Tied(h, events + [e], choices, k, d)
  {
    hide HoldAfter;
    if StillQueued(h, events + [e], choices, k) {
      HoldPrefix(h, choices, events, e, k);
      forall j | k < j <= |events|
        ensures HoldAfter(h, choices, events, j).input != HoldAfter(h, choices, events, k).input
      {
        HoldPrefix(h, choices, events, e, j);
      }
      assert StillQueued(h, events, choices, k);
      assert HoldAfter(h, choices, events, |events|).input != HoldAfter(h, choices, events, k).input;
    }
  }

  // The frame queued last.
  lemma LastTied(h: Hold, events: seq<Event>, e: Event, choices: seq<Choice>, d: Contents)
    requires h.input < |h.locks| == |d.flags| == |d.buffers| && |events| < |choices|
    requires var i := HoldAfter(h, choices, events, |events|).input;
      (e.Queued? && i != HoldAfter(h, choices, events + [e], |events| + 1).input) ==>
        d.flags[i] == e.flag && d.buffers[i] == e.buffer
    ensures Tied(h, events + [e], choices, |events|, d)
  {
    HoldPrefix(h, choices, events, e, |events|);
  }

  lemma {:induction false} SurroundingsSnoc(h: Hold, events: seq<Event>, envs: seq<Env>, choices: seq<Choice>,
                                            e: Event, env: Env)
    requires h.input < |h.locks| && |events| == |envs| < |choices| && Surroundings(h, events, envs, choices)
    requires env.accept == choices[|envs|].accept
    requires e.Queued? && Fetch(HoldAfter(h, choices, events, |events|).locks, choices[|events|].unlocks, 0).owned
      ==> env.flag == Start
    ensures Surroundings(h, events + [e], envs + [env], choices)
  {
    hide Fetch, HoldAfter;
    forall k | 0 <= k < |envs| + 1
      ensures (envs + [env])[k].accept == choices[k].accept
      ensures (events + [e])[k].Queued?
        && Fetch(HoldAfter(h, choices, events + [e], k).locks, choices[k].unlocks, 0).owned
        ==> (envs + [env])[k].flag == Start
    {
      HoldPrefix(h, choices, events, e, k);
    }
  }

  // If every fetch of a run found a frame, all environments are those of a stream: its runs are
  // the behaviours of module ProgressiveFields.
  lemma {:induction false} OwnedWhileStreaming(h: Hold, t: Trace, envs: seq<Env>, choices: seq<Choice>)
    requires h.input < |h.locks| && |t.events| == |envs| <= |choices| && Surroundings(h, t.events, envs, choices)
    requires forall k :: 0 <= k < |envs| ==>
      (t.events[k].Queued? ==> Fetch(HoldAfter(h, choices, t.events, k).locks, choices[k].unlocks, 0).owned)
    ensures FetchedWhileStreaming(t, envs)
  {
    hide Fetch, HoldAfter;
    forall k | 0 <= k < |envs| && t.events[k].Queued? ensures envs[k].flag == Start {
      assert Fetch(HoldAfter(h, choices, t.events, k).locks, choices[k].unlocks, 0).owned;
    }
  }

  lemma {:induction false} MoreFrom(data: seq<Byte>, at: nat, j: nat, n: nat)
    requires j <= n && at + n * G.PACKET_SIZE <= |data|
    ensures |PacketsFrom(data, at, j)| <= |PacketsFrom(data, at, n)|
    decreases n
  {
    if j < n {
      MoreFrom(data, at, j, n - 1);
    }
  }

  lemma {:induction false} MoreOf(data: seq<Byte>, descs: seq<IsoPacket>, i: nat, n: nat)
    requires DescsFit(descs, |data|) && i <= n <= |descs|
    ensures |PacketsOf(data, descs, i)| <= |PacketsOf(data, descs, n)|
    decreases n
  {
    if i < n {
      MoreOf(data, descs, i, n - 1);
    }
  }

  lemma NextOf(data: seq<Byte>, descs: seq<IsoPacket>, i: nat)
    requires DescsFit(descs, |data|) && i < |descs|
    ensures OffsetOf(descs, i) + Wholes(descs[i]) * G.PACKET_SIZE <= |data|
    ensures PacketsOf(data, descs, i + 1) ==
      PacketsOf(data, descs, i) + PacketsFrom(data, OffsetOf(descs, i), Wholes(descs[i]))
    ensures !descs[i].ok ==> PacketsOf(data, descs, i + 1) == PacketsOf(data, descs, i)
  {
    OffsetsFit(descs, |data|, i);
  }

  // The packets met so far are no more than there are.
  lemma {:induction false} MorePackets(data: seq<Byte>, descs: seq<IsoPacket>, i: nat, j: nat)
    requires DescsFit(descs, |data|) && i < |descs| && j <= Wholes(descs[i])
    ensures OffsetOf(descs, i) + j * G.PACKET_SIZE <= |data|
    ensures |PacketsOf(data, descs, i)| + |PacketsFrom(data, OffsetOf(descs, i), j)| <=
      |PacketsOf(data, descs, |descs|)|
  {
    OffsetsFit(descs, |data|, i);
    MoreFrom(data, OffsetOf(descs, i), j, Wholes(descs[i]));
    MoreOf(data, descs, i + 1, |descs|);
  }

  // ------------------------------------------------------------------------------------
  // The driver

  // A state of the driver, from which a request block is processed.
  datatype Origin = Origin(view: State, hold: Hold, queue: seq<Frame>)

  class UsbTvDriver {
    const cfg: Config
    const framePool: seq<Frame>
    var usbInputFrame: Frame
    var currentFrameId: nat
    var packetsDone: nat
    var secondFrame: bool
    var droppedFrameCounter: nat
    var incompleteFrameCounter: nat
    var frameProcessQueue: seq<Frame>

    ghost function Repr(): set<object>
    {
      {this} + (set f: Frame | f in framePool) + set f: Frame | f in framePool :: f.buffer
    }

    // The pool index has eight bits, so larger pools are not searched through.
    ghost predicate Valid()
      reads this
    {
      && Whole(cfg) && cfg.packetsPerField < WORD16 && 1 <= |framePool| <= 255 && packetsDone < WORD16
      && (forall i, j :: 0 <= i < j < |framePool| ==>
        framePool[i] != framePool[j] && framePool[i].buffer != framePool[j].buffer)
      && (forall i :: 0 <= i < |framePool| ==> framePool[i].buffer.Length == BufferSize(cfg))
      && usbInputFrame in framePool
    }

    // What the USB thread knows, as module Reassembly sees it.
    ghost function View(): State
      reads this, usbInputFrame, usbInputFrame.buffer
    {
      State(currentFrameId, packetsDone, secondFrame, usbInputFrame.flags, usbInputFrame.buffer[..],
        droppedFrameCounter, incompleteFrameCounter)
    }

    ghost function Locks(): seq<bool>
      reads set f: Frame | f in framePool
    {
      seq(|framePool|, i requires 0 <= i < |framePool| reads set f: Frame | f in framePool => framePool[i].lock)
    }

    constructor (config: Config, pool: seq<Frame>)
      requires Whole(config) && config.packetsPerField < WORD16 && 1 <= |pool| <= 255
      requires forall i, j :: 0 <= i < j < |pool| ==> pool[i] != pool[j] && pool[i].buffer != pool[j].buffer
      requires forall i :: 0 <= i < |pool| ==> pool[i].buffer.Length == BufferSize(config)
      ensures Valid() && framePool == pool && cfg == config && usbInputFrame == pool[0]
      ensures frameProcessQueue == [] && packetsDone == 0 && !secondFrame && currentFrameId == 0
    {
      cfg := config;
      framePool := pool;
      usbInputFrame := pool[0];
      currentFrameId := 0;
      packetsDone := 0;
      secondFrame := false;
      droppedFrameCounter := 0;
      incompleteFrameCounter := 0;
      frameProcessQueue := [];
    }

    // Other threads give these frames back.
    method ReturnFrames(returned: set<nat>)
      requires Valid()
      modifies (set f: Frame | f in framePool)`lock
      ensures Locks() == Unlock(old(Locks()), returned)
    {
      ghost var before := Locks();
      for i := 0 to |framePool|
        invariant forall j :: 0 <= j < |framePool| ==> framePool[j].lock == (before[j] && (j < i ==> j !in returned))
      {
        if i in returned {
          framePool[i].lock := false;
        }
      }
    }

    method TestAndSet(index: nat) returns (was: bool)
      requires Valid() && index < |framePool|
      modifies (set f: Frame | f in framePool)`lock
      ensures was == old(Locks())[index] && Locks() == old(Locks())[index := true]
    {
      was := framePool[index].lock;
      framePool[index].lock := true;
    }

    // The frame queued is what the event says, unless it has become the input frame again.
    ghost predicate Carries(frame: Frame, e: Event)
      reads this, frame, frame.buffer
    {
      e.Queued? && frame != usbInputFrame ==> frame.flags == e.flag && frame.buffer[..] == e.buffer
    }

    // Finds a frame nobody has locked and locks it, or gives up when the stream is stopped.
    method FetchFrameFromPool(unlocks: seq<set<nat>>) returns (frame: Frame)
      requires Valid()
      modifies set f: Frame | f in framePool
      ensures var r := Fetch(old(Locks()), unlocks, 0);
        && frame == framePool[r.index] && Locks() == r.locks
        && (r.owned ==> frame.flags == Start)
        && forall f :: f in framePool && (f != frame || !r.owned) ==> f.flags == old(f.flags)
    {
      hide Whole, BufferSize, Unlock, Fetch;
      var index, k := 0, 0;
      assert unlocks[k..] == unlocks;
      while k < |unlocks|
        invariant 0 <= k <= |unlocks| && 0 <= index < |framePool|
        invariant Fetch(old(Locks()), unlocks, 0) == Fetch(Locks(), unlocks[k..], index)
        invariant forall f :: f in framePool ==> f.flags == old(f.flags)
      {
        FetchTurn(Locks(), unlocks, k, index);
        ReturnFrames(unlocks[k]);
        ghost var seen := Locks();
        frame := framePool[index];
        var taken := TestAndSet(index);
        if !taken {
          label Free:
          frame.flags := Start;
          assert Locks() == old@Free(Locks());
          return;
        }
        assert Locks() == seen;
        index := index + 1;
        if index >= |framePool| {
          index := 0;
        }
        k := k + 1;
      }
      assert unlocks[k..] == [];
      FetchNothing(Locks(), index);
      return framePool[0];
    }

    // allocateFramePool, once more for a new session: no frame is locked.
    method AllocateFramePool()
      requires Valid()
      modifies set f: Frame | f in framePool
      ensures forall i :: 0 <= i < |framePool| ==> !Locks()[i]
      ensures forall f :: f in framePool ==> f.flags == NoFlag
    {
      for i := 0 to |framePool|
        invariant forall j :: 0 <= j < i ==> framePool[j].flags == NoFlag && !framePool[j].lock
      {
        framePool[i].flags := NoFlag;
        framePool[i].lock := false;
      }
    }

    // A new session: the counters start from zero and the first frame is taken, but the packet
    // count, the frame id and _secondFrame are what the last session left.
    method StartStreaming(unlocks: seq<set<nat>>)
      requires Valid() && unlocks != []
      modifies this`droppedFrameCounter, this`incompleteFrameCounter, this`usbInputFrame, set f: Frame | f in framePool
      ensures Valid() && usbInputFrame == framePool[0]
      ensures View() == State(old(currentFrameId), old(packetsDone), old(secondFrame), Start,
        framePool[0].buffer[..], 0, 0)
      ensures forall i :: 0 <= i < |framePool| ==> Locks()[i] == (i == 0)
    {
      hide Fetch, Whole, BufferSize;
      droppedFrameCounter := 0;
      incompleteFrameCounter := 0;
      AllocateFramePool();
      ghost var locks := Locks();
      FetchAtOnce(locks, unlocks);
      var frame := FetchFrameFromPool(unlocks);
      assert frame == framePool[0] && frame.flags == Start;
      usbInputFrame := frame;
    }

    // memcpy into the frame that is being filled
    method Memcpy(at: nat, bytes: seq<Byte>)
      requires Valid() && at + |bytes| <= usbInputFrame.buffer.Length
      modifies usbInputFrame.buffer
      ensures usbInputFrame.buffer[..] == Overwrite(old(usbInputFrame.buffer[..]), at, bytes)
    {
      var dst := usbInputFrame.buffer;
      ghost var before := dst[..];
      var k := 0;
      while k < |bytes|
        invariant 0 <= k <= |bytes| && dst == usbInputFrame.buffer
        invariant forall o :: 0 <= o < dst.Length ==> dst[o] == if at <= o < at + k then bytes[o - at] else before[o]
      {
        dst[at + k] := bytes[k];
        k := k + 1;
      }
    }

    method PacketToProgressiveFrame(p: Packet)
      requires Valid() && GoodPacket(p)
      requires G.ProgressiveOffset(p.number, 0) + G.PAYLOAD_SIZE <= usbInputFrame.buffer.Length
      modifies usbInputFrame.buffer
      ensures usbInputFrame.buffer[..] == ToProgressive(old(usbInputFrame.buffer[..]), p)
    {
      var bufOffset := p.number * G.PAYLOAD_SIZE;
      Memcpy(bufOffset, p.payload);
    }

    method PacketToInterleavedFrame(p: Packet)
      requires Valid() && GoodPacket(p)
      requires forall half: nat :: half < 2 ==>
        G.PartOffset(G.PartIndex(p.number, half), p.odd) + G.HALF_PAYLOAD <= usbInputFrame.buffer.Length
      modifies usbInputFrame.buffer
      ensures usbInputFrame.buffer[..] == ToInterleaved(old(usbInputFrame.buffer[..]), p)
    {
      hide Overwrite;
      ghost var b0 := usbInputFrame.buffer[..];
      ghost var b1 := Overwrite(b0, G.PartOffset(G.PartIndex(p.number, 0), p.odd), p.payload[..G.HALF_PAYLOAD]);
      var oddFieldOffset := if p.odd then 0 else 1;
      var lineSize := G.WIDTH * 2;
      var packet := p.payload;
      var packetHalf := 0;
      while packetHalf < 2
        invariant 0 <= packetHalf <= 2 && packet == p.payload[packetHalf * G.HALF_PAYLOAD..]
        invariant packetHalf == 0 ==> usbInputFrame.buffer[..] == b0
        invariant packetHalf == 1 ==> usbInputFrame.buffer[..] == b1
        invariant packetHalf == 2 ==> usbInputFrame.buffer[..] == ToInterleaved(b0, p)
      {
        var partIndex := p.number * 2 + packetHalf;
        var lineIndex := partIndex / 3 * 2 + oddFieldOffset;
        var bufferOffset := lineIndex * lineSize + G.HALF_PAYLOAD * (partIndex % 3);
        assert bufferOffset == G.PartOffset(G.PartIndex(p.number, packetHalf), p.odd);
        Memcpy(bufferOffset, packet[..G.HALF_PAYLOAD]);
        assert packetHalf == 1 ==> packet[..G.HALF_PAYLOAD] == p.payload[G.HALF_PAYLOAD..];
        packet := packet[G.HALF_PAYLOAD..];
        packetHalf := packetHalf + 1;
      }
    }

    // Frames that neither were nor are the input frame keep their flags.
    twostate predicate OthersKeepFlags(input: Frame)
      reads this, set f: Frame | f in framePool
    {
      forall f :: f in framePool && f != input && f != usbInputFrame ==> f.flags == old(f.flags)
    }

    // After a queued frame the next one has been fetched, and carries FRAME_START if it is owned;
    // otherwise the input frame is kept.
    ghost predicate Fetches(queued: bool, input: Frame, locks: seq<bool>, unlocks: seq<set<nat>>, env: Env)
      requires 0 < |locks| == |framePool|
      reads this, set f: Frame | f in framePool
    {
      var r := Fetch(locks, unlocks, 0);
      if queued then
        usbInputFrame == framePool[r.index] && Locks() == r.locks && (r.owned ==> env.flag == Start)
      else
        usbInputFrame == input && Locks() == locks
    }

    // What the frame in hand contains goes on the queue, and the next one is fetched.
    method AddCompleteFrameToQueue(accept: bool, unlocks: seq<set<nat>>) returns (ghost env: Env)
      requires Valid()
      modifies this, set f: Frame | f in framePool
      ensures Valid() && env.accept == accept && GoodEnv(cfg, env)
      ensures View() == Enqueue(old(View()), env).st
      ensures frameProcessQueue == old(frameProcessQueue) + if accept then [old(usbInputFrame)] else []
      ensures Fetches(accept, old(usbInputFrame), old(Locks()), unlocks, env)
      ensures forall f :: f in framePool && f != usbInputFrame ==> f.flags == old(f.flags)
    {
      var frame := usbInputFrame;
      if accept {
        frameProcessQueue := frameProcessQueue + [frame];
        usbInputFrame := FetchFrameFromPool(unlocks);
      } else {
        droppedFrameCounter := (droppedFrameCounter + 1) % WORD32;
        usbInputFrame.flags := Start;
      }
      env := Env(accept, usbInputFrame.buffer[..], usbInputFrame.flags);
    }

    // The first half of checkFinishedFrame: the verdict on the field.
    method JudgeFrame()
      requires Valid()
      modifies this`incompleteFrameCounter, usbInputFrame`flags
      ensures Valid() && View() == Judged(cfg, old(View()))
    {
      if packetsDone != cfg.packetsPerField {
        usbInputFrame.flags := Partial;
        incompleteFrameCounter := (incompleteFrameCounter + 1) % WORD32;
      } else {
        usbInputFrame.flags := Complete;
      }
    }

    method CheckFinishedFrame(isOdd: bool, accept: bool, unlocks: seq<set<nat>>) returns (ghost env: Env)
      requires Valid()
      modifies this, set f: Frame | f in framePool
      ensures Valid() && env.accept == accept && GoodEnv(cfg, env)
      ensures View() == Finished(cfg, old(View()), isOdd, env).st
      ensures var e := Finished(cfg, old(View()), isOdd, env).event;
        && Carries(old(usbInputFrame), e)
        && Fetches(e.Queued?, old(usbInputFrame), old(Locks()), unlocks, env)
      ensures OthersKeepFlags(old(usbInputFrame))
      ensures var queued := Finished(cfg, old(View()), isOdd, env).event.Queued?;
        frameProcessQueue == old(frameProcessQueue) + if queued then [old(usbInputFrame)] else []
    {
      hide Fetch, Whole, BufferSize, Judged;
      ghost var locks := Locks();
      JudgeFrame();
      env := Env(accept, usbInputFrame.buffer[..], usbInputFrame.flags);
      assert Locks() == locks;
      match cfg.scan {
        case PROGRESSIVE =>
          env := AddCompleteFrameToQueue(accept, unlocks);
        case DISCARD =>
          if isOdd {
            env := AddCompleteFrameToQueue(accept, unlocks);
          }
        case INTERLEAVED =>
          if secondFrame {
            env := AddCompleteFrameToQueue(accept, unlocks);
            secondFrame := false;
          } else if isOdd {
            secondFrame := true;
          }
      }
    }

    // The first packet of a field
    method OpenField(p: Packet)
      requires Valid()
      modifies this`currentFrameId, this`packetsDone, this`droppedFrameCounter, usbInputFrame`flags
      ensures Valid() && View() == Opened(old(View()), p)
    {
      if p.number == 0 || p.id != currentFrameId {
        if usbInputFrame.flags == InProgress {
          droppedFrameCounter := (droppedFrameCounter + 1) % WORD32;
        }
        currentFrameId := p.id;
        packetsDone := 0;
        usbInputFrame.flags := InProgress;
      }
    }

    method CopyPacket(p: Packet)
      requires Valid() && GoodPacket(p) && p.number < cfg.packetsPerField
      modifies usbInputFrame.buffer
      ensures usbInputFrame.buffer[..] == Copied(cfg, old(usbInputFrame.buffer[..]), p)
    {
      match cfg.scan {
        case PROGRESSIVE =>
          PacketToProgressiveFrame(p);
        case DISCARD =>
          if p.odd {
            PacketToProgressiveFrame(p);
          }
        case INTERLEAVED =>
          HalvesFit(p.number, 0, p.odd, cfg.packetsPerField);
          HalvesFit(p.number, 1, p.odd, cfg.packetsPerField);
          PacketToInterleavedFrame(p);
      }
    }

    // A packet whose header is not in order is ignored; any other takes one step.  No buffer is
    // written but that of the input frame.
    method ProcessPacket(raw: seq<Byte>, accept: bool, unlocks: seq<set<nat>>) returns (ghost env: Env)
      requires Valid() && |raw| == G.PACKET_SIZE
      modifies this, usbInputFrame.buffer, set f: Frame | f in framePool
      ensures Valid() && env.accept == accept && GoodEnv(cfg, env)
      ensures Decode(raw).None? ==>
        View() == old(View()) && frameProcessQueue == old(frameProcessQueue) && usbInputFrame == old(usbInputFrame)
        && Locks() == old(Locks())
      ensures Decode(raw).Some? ==>
        var o := Step(cfg, old(View()), Decode(raw).value, env);
        && View() == o.st && Carries(old(usbInputFrame), o.event)
        && frameProcessQueue == old(frameProcessQueue) + (if o.event.Queued? then [old(usbInputFrame)] else [])
        && Fetches(o.event.Queued?, old(usbInputFrame), old(Locks()), unlocks, env)
      ensures OthersKeepFlags(old(usbInputFrame))
    {
      hide Copied, Decode, Opened, Finished, Fetch;
      ghost var locks := Locks();
      env := Env(accept, usbInputFrame.buffer[..], usbInputFrame.flags);
      match Decode(raw) {
        case None =>
        case Some(p) =>
          if p.number >= cfg.packetsPerField {
            return;
          }
          DecodedIsGood(raw);
          OpenField(p);
          CopyPacket(p);
          packetsDone := (packetsDone + 1) % WORD16;
          assert Locks() == locks;
          if p.number == cfg.packetsPerField - 1 {
            env := CheckFinishedFrame(p.odd, accept, unlocks);
          }
      }
    }

    // The state now: what module Reassembly sees, the input frame and the locks, and the queue.
    ghost predicate Is(o: Origin)
      reads this, set f: Frame | f in framePool, set f: Frame | f in framePool :: f.buffer
    {
      && usbInputFrame in framePool && View() == o.view && frameProcessQueue == o.queue && Locks() == o.hold.locks
      && o.hold.input < |framePool| && framePool[o.hold.input] == usbInputFrame
    }

    ghost function Held(): Contents
      reads set f: Frame | f in framePool, set f: Frame | f in framePool :: f.buffer
    {
      Contents(
        seq(|framePool|, i requires 0 <= i < |framePool| reads set f: Frame | f in framePool => framePool[i].flags),
        seq(|framePool|, i requires 0 <= i < |framePool| reads set f: Frame | f in framePool :: f.buffer =>
          framePool[i].buffer[..]))
    }

    ghost function FramesAt(indices: seq<nat>): seq<Frame>
      requires forall i :: 0 <= i < |indices| ==> indices[i] < |framePool|
    {
      seq(|indices|, i requires 0 <= i < |indices| => framePool[indices[i]])
    }

    // From o on the good packets ps have been processed, in the surroundings envs.
    ghost predicate Reached(o: Origin, ps: seq<Packet>, envs: seq<Env>, choices: seq<Choice>)
      reads this, set f: Frame | f in framePool, set f: Frame | f in framePool :: f.buffer
    {
      && GoodRun(cfg, o.view, ps, envs) && |ps| <= |choices| && o.hold.input < |o.hold.locks| == |framePool|
      && var t := Run(cfg, o.view, ps, envs);
        var h := HoldAfter(o.hold, choices, t.events, |ps|);
        && Is(Origin(t.st, h, o.queue + FramesAt(QueuedWith(o.hold, choices, t.events, |ps|))))
        && Surroundings(o.hold, t.events, envs, choices)
        && forall k :: 0 <= k < |ps| ==> Tied(o.hold, t.events, choices, k, Held())
    }

    lemma ReachedAtStart(o: Origin, choices: seq<Choice>)
      requires Valid() && Is(o)
      ensures Reached(o, [], [], choices)
    {}

    // What one packet adds to the history.
    lemma {:induction false} HoldSnoc(h: Hold, events: seq<Event>, e: Event, choices: seq<Choice>)
      requires h.input < |h.locks| == |framePool| && |events| < |choices|
      ensures var k := |events|; var now := HoldAfter(h, choices, events, k);
        && HoldAfter(h, choices, events + [e], k + 1)
           == (if e.Queued? then var f := Fetch(now.locks, choices[k].unlocks, 0); Hold(f.index, f.locks) else now)
        && FramesAt(QueuedWith(h, choices, events + [e], k + 1))
           == FramesAt(QueuedWith(h, choices, events, k)) + (if e.Queued? then [framePool[now.input]] else [])
    {
      HoldPrefix(h, choices, events, e, |events|);
    }

    // One packet more.
    method OnPacket(raw: seq<Byte>, choice: Choice,
                    ghost o: Origin, ghost ps: seq<Packet>, ghost envs: seq<Env>, ghost choices: seq<Choice>)
        returns (ghost ps': seq<Packet>, ghost envs': seq<Env>)
      requires Valid() && |raw| == G.PACKET_SIZE && Reached(o, ps, envs, choices)
      requires Decode(raw).Some? ==> |ps| < |choices| && choices[|ps|] == choice
      modifies this, usbInputFrame.buffer, set f: Frame | f in framePool
      ensures Valid() && Reached(o, ps', envs', choices)
      ensures ps' == ps + match Decode(raw) { case None => [] case Some(p) => [p] }
    {
      hide Decode, Step, Run, Fetch, HoldAfter, QueuedWith, Surroundings, FramesAt, Tied, Whole;
      ghost var v, held, input := View(), Held(), usbInputFrame;
      ghost var env := ProcessPacket(raw, choice.accept, choice.unlocks);
      ps', envs' := ps, envs;
      match Decode(raw) {
        case None =>
          assert ps + [] == ps;
          assert Held() == held;
        case Some(p) =>
          DecodedIsGood(raw);
          ps', envs' := ps + [p], envs + [env];
          RunSnoc(cfg, o.view, ps, envs, p, env);
          ghost var events, e := Run(cfg, o.view, ps, envs).events, Step(cfg, v, p, env).event;
          HoldSnoc(o.hold, events, e, choices);
          SurroundingsSnoc(o.hold, events, envs, choices, e, env);
          ghost var h := HoldAfter(o.hold, choices, events, |ps|);
          ghost var h' := HoldAfter(o.hold, choices, events + [e], |ps| + 1);
          assert OthersKept(held, Held(), h.input, h'.input);
          forall k | 0 <= k < |ps| ensures Tied(o.hold, events + [e], choices, k, Held()) {
            TiedStill(o.hold, events, e, choices, k, held, Held());
          }
          LastTied(o.hold, events, e, choices, Held());
      }
    }

    // The whole packets of one isochronous packet; n good ones came before.
    method OnIsoPacket(data: array<Byte>, buffer: nat, count: nat, choices: seq<Choice>, n: nat,
                       ghost o: Origin, ghost ps: seq<Packet>, ghost envs: seq<Env>)
        returns (m: nat, ghost ps': seq<Packet>, ghost envs': seq<Env>)
      requires Valid() && data !in Repr() && buffer + count * G.PACKET_SIZE <= data.Length
      requires n == |ps| && Reached(o, ps, envs, choices)
      requires |ps| + |PacketsFrom(data[..], buffer, count)| <= |choices|
      modifies this, (set f: Frame | f in framePool), set f: Frame | f in framePool :: f.buffer
      ensures Valid() && data[..] == old(data[..])
      ensures m == |ps'| && ps' == ps + PacketsFrom(data[..], buffer, count) && Reached(o, ps', envs', choices)
    {
      hide Reached, Decode, DescsFit;
      ghost var bytes := data[..];
      m, ps', envs' := n, ps, envs;
      var j := 0;
      while j < count
        invariant 0 <= j <= count && Valid() && data[..] == bytes
        invariant m == |ps'| && ps' == ps + PacketsFrom(bytes, buffer, j)
        invariant Reached(o, ps', envs', choices)
      {
        var packet := data[buffer + j * G.PACKET_SIZE..buffer + (j + 1) * G.PACKET_SIZE];
        assert packet == bytes[buffer + j * G.PACKET_SIZE..buffer + (j + 1) * G.PACKET_SIZE];
        MoreFrom(bytes, buffer, j + 1, count);
        assert PacketsFrom(bytes, buffer, j + 1)
            == PacketsFrom(bytes, buffer, j) + match Decode(packet) { case None => [] case Some(p) => [p] };
        if Decode(packet).Some? {
          ps', envs' := OnPacket(packet, choices[m], o, ps', envs', choices);
          m := m + 1;
        } else {
          ps', envs' := OnPacket(packet, Choice(false, []), o, ps', envs', choices);
        }
        j := j + 1;
      }
    }

    // All packets of a request block, in order; every frame queued is on the queue, flagged and
    // filled as its event says.
    method OnUrbReceived(data: array<Byte>, descs: seq<IsoPacket>, choices: seq<Choice>, ghost o: Origin)
        returns (ghost envs: seq<Env>)
      requires Valid() && data !in Repr() && DescsFit(descs, data.Length) && Is(o)
      requires |choices| == |PacketsOf(data[..], descs, |descs|)|
      modifies this, (set f: Frame | f in framePool), set f: Frame | f in framePool :: f.buffer
      ensures Valid() && Reached(o, PacketsOf(old(data[..]), descs, |descs|), envs, choices)
    {
      hide Reached, Decode, DescsFit, PacketsFrom, Whole;
      ghost var bytes := data[..];
      ghost var ps := [];
      envs := [];
      var buffer, packetOffset, n := 0, 0, 0;
      ReachedAtStart(o, choices);
      for i := 0 to |descs|
        invariant Valid() && data[..] == bytes
        invariant buffer + packetOffset == OffsetOf(descs, i)
        invariant n == |ps| && ps == PacketsOf(bytes, descs, i)
        invariant Reached(o, ps, envs, choices)
      {
        var d := descs[i];
        buffer := buffer + packetOffset;
        NextOf(bytes, descs, i);
        MorePackets(bytes, descs, i, Wholes(d));
        if d.ok {
          n, ps, envs := OnIsoPacket(data, buffer, d.actualLength / G.PACKET_SIZE, choices, n, o, ps, envs);
        }
        packetOffset := d.length;
      }
    }
  }
}
