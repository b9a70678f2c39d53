/**
 What the USB thread's packet count says about the packets of a field, in every scan mode.

 A Field is the history of the field that is current: the packets accepted since it was opened,
 and the count that was there before them.  Neither `_packetsDone` nor `_currentFrameId` is reset
 when streaming starts, so the first packets of a session may continue the last field of the
 session before, with its count; `base` is then not 0.  It is 0 once a field has been opened.
 */
module FieldHistory {
  import opened Counting
  import opened Modular
  import opened Reassembly

  datatype Field = Field(seen: seq<Packet>, base: nat)

  predicate InField(cfg: Config, p: Packet) { p.number < cfg.packetsPerField }

  predicate IsLast(cfg: Config, p: Packet) { p.number == cfg.packetsPerField - 1 }

  predicate Opening(cfg: Config, st: State, p: Packet) { InField(cfg, p) && Opens(st, p) }

  // The field once a packet has come; a packet not opening a field belongs to the current one.
  function Extend(cfg: Config, st: State, f: Field, p: Packet): Field
  {
    if !InField(cfg, p) then f
    else if Opens(st, p) then Field([p], 0)
    else Field(f.seen + [p], f.base)
  }

  predicate Ended(cfg: Config, f: Field) { f.seen != [] && IsLast(cfg, f.seen[|f.seen| - 1]) }

  // The flag a finished field gets with its last packet.
  function Verdict(cfg: Config, st: State, p: Packet): Flag { Judged(cfg, Accepted(st, p)).flag }

  // The history of the field whose last packet is in the buffer, or of the stale one at the start.
  ghost predicate Tracks(cfg: Config, st: State, f: Field)
  {
    st.done == Total(f) % WORD16 && Holds(cfg, st.id, f)
  }

  ghost predicate Holds(cfg: Config, id: nat, f: Field)
  {
    f.base < WORD16 && forall j :: 0 <= j < |f.seen| ==> Belongs(cfg, id, f.base, f.seen[j])
  }

  function Total(f: Field): nat { f.base + |f.seen| }

  // A packet with number 0 opens a field.
  predicate Belongs(cfg: Config, id: nat, base: nat, p: Packet)
  {
    GoodPacket(p) && p.id == id && InField(cfg, p) && (base != 0 ==> p.number != 0)
  }

  lemma TracksNothing(cfg: Config, st: State)
    requires st.done < WORD16
    ensures Tracks(cfg, st, Field([], st.done))
  {}

  lemma SuccMod(a: nat)
    ensures (a % WORD16 + 1) % WORD16 == (a + 1) % WORD16
  {}

  // Every packet, in whatever order, keeps the history, and the verdict is that of the count.
  lemma StepTracks(cfg: Config, st: State, f: Field, p: Packet, env: Env)
    requires Whole(cfg) && |st.buffer| == BufferSize(cfg) && GoodPacket(p) && Tracks(cfg, st, f)
    ensures Tracks(cfg, Step(cfg, st, p, env).st, Extend(cfg, st, f, p))
    ensures Verdict(cfg, st, p) == Complete || Verdict(cfg, st, p) == Partial
    ensures InField(cfg, p) ==>
      (Verdict(cfg, st, p) == Complete <==> Total(Extend(cfg, st, f, p)) % WORD16 == cfg.packetsPerField)
  {
    hide Copied, Inc32;
    SuccMod(Total(f));
  }

  // A packet that is not the last of its field leaves the frame in hand.
  lemma InnerStep(cfg: Config, st: State, p: Packet, env: Env)
    requires Whole(cfg) && |st.buffer| == BufferSize(cfg) && GoodPacket(p) && InField(cfg, p) && !IsLast(cfg, p)
    ensures Step(cfg, st, p, env) == Outcome(Accepted(st, p).(buffer := Copied(cfg, st.buffer, p)), Nothing)
  {
    hide Copied;
  }

  lemma OutsideStep(cfg: Config, st: State, p: Packet, env: Env)
    requires Whole(cfg) && |st.buffer| == BufferSize(cfg) && GoodPacket(p) && !InField(cfg, p)
    ensures Step(cfg, st, p, env) == Outcome(st, Nothing)
  {}

  // A frame is queued only with the last packet of a field, and carries the verdict on it.
  lemma QueuedWithVerdict(cfg: Config, st: State, p: Packet, env: Env)
    requires Whole(cfg) && |st.buffer| == BufferSize(cfg) && GoodPacket(p)
    requires Step(cfg, st, p, env).event.Queued?
    ensures IsLast(cfg, p) && Step(cfg, st, p, env).event.flag == Verdict(cfg, st, p)
    ensures Step(cfg, st, p, env).event.buffer == Copied(cfg, st.buffer, p)
  {
    hide Copied, Inc32;
  }

  // ------------------------------------------------------------------------------------
  // The packets of a field

  ghost predicate Present(seen: seq<Packet>, n: nat) { exists j :: 0 <= j < |seen| && seen[j].number == n }

  ghost predicate AllPresent(seen: seq<Packet>, packetsPerField: nat)
  {
    forall n: nat :: n < packetsPerField ==> Present(seen, n)
  }

  ghost function Numbers(seen: seq<Packet>): set<nat> { set j | 0 <= j < |seen| :: seen[j].number }

  ghost function Missing(seen: seq<Packet>, packetsPerField: nat): set<nat>
  {
    Range(0, packetsPerField) - Numbers(seen)
  }

  ghost function Duplicates(seen: seq<Packet>): int { |seen| - |Numbers(seen)| }

  lemma NumbersArePresent(seen: seq<Packet>, n: nat)
    ensures n in Numbers(seen) <==> Present(seen, n)
  {}

  lemma {:induction false} NumbersBounded(seen: seq<Packet>, n: nat)
    requires forall j :: 0 <= j < |seen| ==> seen[j].number < n
    ensures Numbers(seen) <= Range(0, n)
  {}

  // All are present exactly if none is missing.
  lemma NoneMissing(seen: seq<Packet>, packetsPerField: nat)
    requires forall j :: 0 <= j < |seen| ==> seen[j].number < packetsPerField
    ensures AllPresent(seen, packetsPerField) <==> Missing(seen, packetsPerField) == {}
    ensures |Numbers(seen)| + |Missing(seen, packetsPerField)| == packetsPerField
  {
    hide Numbers, Present;
    NumbersBounded(seen, packetsPerField);
    var all, here := Range(0, packetsPerField), Numbers(seen);
    UnionSize(here, all - here);
    assert here + (all - here) == all;
    forall n: nat ensures n in Numbers(seen) <==> Present(seen, n) {
      NumbersArePresent(seen, n);
    }
    if all - here == {} {
      forall n: nat | n < packetsPerField ensures Present(seen, n) {
        assert n in all;
      }
    } else {
      var n :| n in all - here;
      assert !Present(seen, n);
    }
  }

  lemma PresentOrMissing(cfg: Config, id: nat, f: Field)
    requires Holds(cfg, id, f)
    ensures AllPresent(f.seen, cfg.packetsPerField) <==> |Missing(f.seen, cfg.packetsPerField)| == 0
  {
    hide Missing, AllPresent;
    assert forall j :: 0 <= j < |f.seen| ==> Belongs(cfg, id, f.base, f.seen[j]);
    NoneMissing(f.seen, cfg.packetsPerField);
    assert Missing(f.seen, cfg.packetsPerField) == {} <==> |Missing(f.seen, cfg.packetsPerField)| == 0;
  }

  lemma {:induction false} NumbersSize(seen: seq<Packet>)
    ensures |Numbers(seen)| <= |seen|
  {
    if seen != [] {
      var k := |seen| - 1;
      NumbersSize(seen[..k]);
      NumbersOneMore(seen[..k], seen[k]);
      assert seen == seen[..k] + [seen[k]];
    }
  }

  lemma NumbersOneMore(seen: seq<Packet>, p: Packet)
    ensures Numbers(seen + [p]) == Numbers(seen) + {p.number}
  {
    forall n | n in Numbers(seen) + {p.number} ensures n in Numbers(seen + [p]) {
      if n == p.number {
        assert (seen + [p])[|seen|].number == n;
      } else {
        var j :| 0 <= j < |seen| && seen[j].number == n;
        assert (seen + [p])[j].number == n;
      }
    }
  }

  // ------------------------------------------------------------------------------------
  // Where the count is wrong about a field

  // Packets that came twice, or the stale count, make up for those missing; or so many came
  // twice that the count went once around.
  ghost predicate CountMisleads(f: Field, packetsPerField: nat)
  {
    var missing := Missing(f.seen, packetsPerField);
    if missing == {} then Duplicates(f.seen) % WORD16 != 0
    else (f.base + Duplicates(f.seen)) % WORD16 == |missing|
  }

  lemma ModShift(a: int, n: nat, m: nat, w: nat)
    requires m < w && n < w
    ensures (a + n - m) % w == n <==> a % w == m
  {
    if a % w == m {
      DivModUnique(a + n - m, w, a / w, n);
    }
    if (a + n - m) % w == n {
      DivModUnique(a, w, (a + n - m) / w, m);
    }
  }

  // Exactly there.
  lemma CountIsRight(cfg: Config, id: nat, f: Field)
    requires Holds(cfg, id, f) && 1 <= cfg.packetsPerField < WORD16
    ensures (Total(f) % WORD16 == cfg.packetsPerField <==> AllPresent(f.seen, cfg.packetsPerField))
      <==> !CountMisleads(f, cfg.packetsPerField)
  {
    hide Missing, Numbers, Present;
    var n := cfg.packetsPerField;
    NoneMissing(f.seen, n);
    NumbersSize(f.seen);
    var m := |Missing(f.seen, n)|;
    assert Total(f) == f.base + Duplicates(f.seen) + n - m;
    ModShift(f.base + Duplicates(f.seen), n, m, WORD16);
    if Missing(f.seen, n) == {} {
      assert Present(f.seen, 0);
      ZeroOpens(cfg, id, f);
    } else {
      assert m != 0;
    }
  }

  // A field of which packet 0 came has been opened.
  lemma ZeroOpens(cfg: Config, id: nat, f: Field)
    requires Holds(cfg, id, f) && Present(f.seen, 0)
    ensures f.base == 0
  {}

  // ------------------------------------------------------------------------------------
  // Fields whose packets come in order, possibly with some lost

  // A packet opens a field or has a higher number than the one before.
  predicate InOrder(cfg: Config, st: State, f: Field, p: Packet)
  {
    InField(cfg, p) && !Opens(st, p) && f.seen != [] ==> f.seen[|f.seen| - 1].number < p.number
  }

  ghost predicate Ascending(seen: seq<Packet>)
  {
    forall i, j :: 0 <= i < j < |seen| ==> seen[i].number < seen[j].number
  }

  lemma ExtendsInOrder(cfg: Config, st: State, f: Field, p: Packet)
    requires Ascending(f.seen) && InOrder(cfg, st, f, p)
    ensures Ascending(Extend(cfg, st, f, p).seen)
  {}

  lemma {:induction false} NoDuplicates(seen: seq<Packet>)
    requires Ascending(seen)
    ensures Duplicates(seen) == 0
  {
    if seen != [] {
      var k := |seen| - 1;
      NoDuplicates(seen[..k]);
      NumbersOneMore(seen[..k], seen[k]);
      assert seen == seen[..k] + [seen[k]];
      assert seen[k].number !in Numbers(seen[..k]);
    }
  }

  ghost predicate StaleCompletes(f: Field, packetsPerField: nat)
  {
    f.base != 0 && f.base == |Missing(f.seen, packetsPerField)|
  }

  // Then only a stale count can mislead: one that equals the number of packets missing.
  lemma InOrderMisleads(f: Field, packetsPerField: nat)
    requires Ascending(f.seen) && f.base < WORD16
    ensures CountMisleads(f, packetsPerField) <==> StaleCompletes(f, packetsPerField)
  {
    hide Missing, Duplicates, Ascending;
    NoDuplicates(f.seen);
    assert Missing(f.seen, packetsPerField) == {} <==> |Missing(f.seen, packetsPerField)| == 0;
  }

  // So a field in order is judged complete exactly if it is, or if the stale count equals the
  // number of packets missing.
  lemma InOrderVerdict(cfg: Config, id: nat, f: Field)
    requires Holds(cfg, id, f) && Ascending(f.seen) && 1 <= cfg.packetsPerField < WORD16
    ensures Total(f) % WORD16 == cfg.packetsPerField <==>
      AllPresent(f.seen, cfg.packetsPerField) || StaleCompletes(f, cfg.packetsPerField)
    ensures AllPresent(f.seen, cfg.packetsPerField) ==> f.base == 0
  {
    hide Missing, AllPresent, CountMisleads, Ascending;
    CountIsRight(cfg, id, f);
    InOrderMisleads(f, cfg.packetsPerField);
    PresentOrMissing(cfg, id, f);
    if AllPresent(f.seen, cfg.packetsPerField) {
      WholeIsOpened(cfg, id, f);
    }
  }

  lemma WholeIsOpened(cfg: Config, id: nat, f: Field)
    requires Holds(cfg, id, f) && 1 <= cfg.packetsPerField && AllPresent(f.seen, cfg.packetsPerField)
    ensures f.base == 0
  {
    hide Present;
    assert Present(f.seen, 0);
    ZeroOpens(cfg, id, f);
  }

  // Packets 0, 1, ..., n - 1 of one field.
  ghost predicate IsField(seen: seq<Packet>, id: nat, n: nat)
  {
    |seen| == n && forall j :: 0 <= j < n ==> seen[j].number == j && seen[j].id == id
  }

  lemma {:induction false} NumbersAtLeast(seen: seq<Packet>, j: nat)
    requires Ascending(seen) && j < |seen|
    ensures seen[j].number >= j
  {
    if j > 0 {
      NumbersAtLeast(seen, j - 1);
    }
  }

  // Numbers below a number without a gap have none.
  lemma {:induction false} NumbersApart(seen: seq<Packet>, i: nat, k: nat)
    requires Ascending(seen) && i <= k < |seen|
    ensures seen[k].number - seen[i].number >= k - i
    decreases k - i
  {
    if i < k {
      NumbersApart(seen, i + 1, k);
    }
  }

  lemma FullIsField(cfg: Config, id: nat, f: Field)
    requires Holds(cfg, id, f) && Ascending(f.seen) && AllPresent(f.seen, cfg.packetsPerField)
    ensures IsField(f.seen, id, cfg.packetsPerField)
  {
    var n := cfg.packetsPerField;
    NoneMissing(f.seen, n);
    NoDuplicates(f.seen);
    forall j | 0 <= j < n ensures f.seen[j].number == j && f.seen[j].id == id {
      NumbersAtLeast(f.seen, j);
      NumbersApart(f.seen, j, n - 1);
    }
  }
}
