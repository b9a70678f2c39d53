/**
 What the frames queued in PROGRESSIVE mode contain, and where every field ends up.
 */
module ProgressiveFields {
  import opened Counting
  import opened FieldHistory
  import opened Reassembly
  import G = Geometry

  // A run with its history: the current field, and counts of fields opened, of last packets that
  // arrive with no field open, of frames queued, of frames dropped and of fields judged with
  // packets missing.
  datatype History = History(
    st: State,
    field: Field,
    begun: nat,
    orphans: nat,
    queued: nat,
    drops: nat,
    partial: nat)

  function Count(b: bool): nat { if b then 1 else 0 }

  function Next(cfg: Config, h: History, p: Packet, env: Env): History
    requires Whole(cfg) && |h.st.buffer| == BufferSize(cfg) && GoodPacket(p)
  {
    var o := Step(cfg, h.st, p, env);
    var field := Extend(cfg, h.st, h.field, p);
    var opens, last := Opening(cfg, h.st, p), IsLast(cfg, p);
    History(o.st, field,
            h.begun + Count(opens),
            h.orphans + Count(last && !opens && !h.st.flag.InProgress?),
            h.queued + Count(o.event.Queued?),
            h.drops + Count(opens && h.st.flag.InProgress?) + Count(last && !env.accept),
            h.partial + Count(last && |field.seen| < cfg.packetsPerField))
  }

  ghost predicate StepsTo(cfg: Config, h: History, p: Packet, env: Env, h': History)
  {
    && Whole(cfg) && GoodPacket(p) && GoodEnv(cfg, env)
    && |h.st.buffer| == BufferSize(cfg) && cfg.scan.PROGRESSIVE? && h' == Next(cfg, h, p, env)
    && (Step(cfg, h.st, p, env).event.Queued? ==> env.flag == Start)
  }

  ghost predicate Behaviour(cfg: Config, hs: seq<History>, ps: seq<Packet>, envs: seq<Env>)
  {
    && cfg.scan.PROGRESSIVE? && |hs| == |ps| + 1 == |envs| + 1
    && |hs[0].st.buffer| == BufferSize(cfg)
    && forall i :: 0 <= i < |ps| ==> StepsTo(cfg, hs[i], ps[i], envs[i], hs[i + 1])
  }

  // When streaming starts the input frame has just been fetched from the pool and the two
  // counters are zero; the packet count and the frame id are what the last session left.
  ghost predicate AtStart(h: History)
  {
    && h.st.flag == Start && h.st.dropped == 0 && h.st.incomplete == 0 && h.st.done < WORD16
    && h.field == Field([], h.st.done)
    && h.begun == h.orphans == h.queued == h.drops == h.partial == 0
  }

  lemma StepAt(cfg: Config, hs: seq<History>, ps: seq<Packet>, envs: seq<Env>, i: nat)
    requires Behaviour(cfg, hs, ps, envs) && i < |ps|
    ensures StepsTo(cfg, hs[i], ps[i], envs[i], hs[i + 1])
  {}

  // ------------------------------------------------------------------------------------
  // Every run of module Reassembly is a behaviour

  ghost function Trail(cfg: Config, h: History, ps: seq<Packet>, envs: seq<Env>): (hs: seq<History>)
    requires GoodRun(cfg, h.st, ps, envs)
    ensures |hs| == |ps| + 1 && hs[|ps|].st == Run(cfg, h.st, ps, envs).st
  {
    if ps == [] then [h]
    else
      var n := |ps| - 1;
      var hs := Trail(cfg, h, ps[..n], envs[..n]);
      hs + [Next(cfg, hs[n], ps[n], envs[n])]
  }

  ghost predicate StepsWith(cfg: Config, h: History, p: Packet, env: Env, h': History, e: Event)
  {
    StepsTo(cfg, h, p, env, h') && e == Step(cfg, h.st, p, env).event
  }

  lemma {:induction false} RunsAreBehaviours(cfg: Config, h: History, ps: seq<Packet>, envs: seq<Env>)
    requires cfg.scan.PROGRESSIVE? && GoodRun(cfg, h.st, ps, envs)
    requires FetchedWhileStreaming(Run(cfg, h.st, ps, envs), envs)
    ensures var hs, t := Trail(cfg, h, ps, envs), Run(cfg, h.st, ps, envs);
      && hs[0] == h && Behaviour(cfg, hs, ps, envs)
      && forall i :: 0 <= i < |ps| ==> StepsWith(cfg, hs[i], ps[i], envs[i], hs[i + 1], t.events[i])
  {
    hide Step, GoodEnv;
    if ps != [] {
      var n := |ps| - 1;
      var qs, fs := ps[..n], envs[..n];
      var t, u := Run(cfg, h.st, ps, envs), Run(cfg, h.st, qs, fs);
      assert forall i :: 0 <= i < n ==> u.events[i] == t.events[i] && fs[i] == envs[i];
      RunsAreBehaviours(cfg, h, qs, fs);
      var gs, hs := Trail(cfg, h, qs, fs), Trail(cfg, h, ps, envs);
      forall i | 0 <= i < |ps| ensures StepsWith(cfg, hs[i], ps[i], envs[i], hs[i + 1], t.events[i]) {
        if i < n {
          assert StepsWith(cfg, gs[i], qs[i], fs[i], gs[i + 1], u.events[i]);
        }
      }
      forall i | 0 <= i < |ps| ensures StepsTo(cfg, hs[i], ps[i], envs[i], hs[i + 1]) {
        assert StepsWith(cfg, hs[i], ps[i], envs[i], hs[i + 1], t.events[i]);
      }
    }
  }

  // ------------------------------------------------------------------------------------
  // Every field opened is queued, dropped or in progress

  ghost predicate Balanced(h: History)
  {
    && h.begun + h.orphans == h.queued + h.drops + Count(h.st.flag.InProgress?)
    && h.st.dropped == h.drops % WORD32
  }

  lemma IncWraps(d: nat)
    ensures Inc32(d % WORD32) == (d + 1) % WORD32
  {}

  lemma StepBalances(cfg: Config, h: History, p: Packet, env: Env, h': History)
    requires StepsTo(cfg, h, p, env, h') && Balanced(h)
    ensures Balanced(h')
  {
    hide Copied, Inc32;
    IncWraps(h.drops);
    IncWraps(h.drops + 1);
  }

  lemma {:induction false} AlwaysBalanced(cfg: Config, hs: seq<History>, ps: seq<Packet>, envs: seq<Env>, i: nat)
    requires Behaviour(cfg, hs, ps, envs) && AtStart(hs[0]) && i < |hs|
    ensures Balanced(hs[i])
  {
    hide StepsTo, Next;
    if i > 0 {
      AlwaysBalanced(cfg, hs, ps, envs, i - 1);
      StepAt(cfg, hs, ps, envs, i - 1);
      StepBalances(cfg, hs[i - 1], ps[i - 1], envs[i - 1], hs[i]);
    }
  }

  // ------------------------------------------------------------------------------------
  // FRAME_COMPLETE, for packets in any order

  lemma {:induction false} AlwaysTracks(cfg: Config, hs: seq<History>, ps: seq<Packet>, envs: seq<Env>, i: nat)
    requires Behaviour(cfg, hs, ps, envs) && AtStart(hs[0]) && i < |hs|
    ensures Tracks(cfg, hs[i].st, hs[i].field) && |hs[i].st.buffer| == BufferSize(cfg)
  {
    hide Step, Tracks;
    if i == 0 {
      TracksNothing(cfg, hs[0].st);
    } else {
      AlwaysTracks(cfg, hs, ps, envs, i - 1);
      StepAt(cfg, hs, ps, envs, i - 1);
      StepTracks(cfg, hs[i - 1].st, hs[i - 1].field, ps[i - 1], envs[i - 1]);
      StepKeepsSize(cfg, hs[i - 1].st, ps[i - 1], envs[i - 1]);
    }
  }

  // Whatever is left over from the last session counts until the first field is opened.
  lemma {:induction false} StaleUntilOpened(cfg: Config, hs: seq<History>, ps: seq<Packet>, envs: seq<Env>, i: nat)
    requires Behaviour(cfg, hs, ps, envs) && AtStart(hs[0]) && i < |hs|
    ensures hs[i].field.base ==
      if exists k :: 0 <= k < i && Opening(cfg, hs[k].st, ps[k]) then 0 else hs[0].st.done
  {
    hide Step, AtStart, Opens, IsLast;
    if i == 0 {
      StartsStale(hs[0]);
    } else {
      StaleUntilOpened(cfg, hs, ps, envs, i - 1);
      StepAt(cfg, hs, ps, envs, i - 1);
      if Opening(cfg, hs[i - 1].st, ps[i - 1]) {
        assert hs[i].field.base == 0;
      } else {
        assert hs[i].field.base == hs[i - 1].field.base;
      }
    }
  }

  lemma StartsStale(h: History)
    requires AtStart(h)
    ensures h.field.base == h.st.done
  {}

  // The flag of a queued frame depends on nothing but the number of packets counted.
  lemma FlagIsTheCount(cfg: Config, hs: seq<History>, ps: seq<Packet>, envs: seq<Env>, i: nat)
    requires Behaviour(cfg, hs, ps, envs) && AtStart(hs[0]) && i < |ps|
    requires StepsTo(cfg, hs[i], ps[i], envs[i], hs[i + 1]) && Step(cfg, hs[i].st, ps[i], envs[i]).event.Queued?
    ensures var e, f := Step(cfg, hs[i].st, ps[i], envs[i]).event, hs[i + 1].field;
      && (e.flag == Complete <==> Total(f) % WORD16 == cfg.packetsPerField)
      && (e.flag == Complete || e.flag == Partial)
      && IsLast(cfg, ps[i])
  {
    hide Step, Tracks, Verdict;
    AlwaysTracks(cfg, hs, ps, envs, i);
    QueuedWithVerdict(cfg, hs[i].st, ps[i], envs[i]);
    StepTracks(cfg, hs[i].st, hs[i].field, ps[i], envs[i]);
  }

  // It is right about the packets seen exactly if the count does not mislead: none is missing
  // and those that came twice number a multiple of 2^16, or some are missing and neither those
  // that came twice nor a stale count make up for them.
  lemma FlagIsRight(cfg: Config, hs: seq<History>, ps: seq<Packet>, envs: seq<Env>, i: nat)
    requires Behaviour(cfg, hs, ps, envs) && AtStart(hs[0]) && i < |ps| && cfg.packetsPerField < WORD16
    requires StepsTo(cfg, hs[i], ps[i], envs[i], hs[i + 1]) && Step(cfg, hs[i].st, ps[i], envs[i]).event.Queued?
    ensures var e, f := Step(cfg, hs[i].st, ps[i], envs[i]).event, hs[i + 1].field;
      (e.flag == Complete <==> AllPresent(f.seen, cfg.packetsPerField)) <==> !CountMisleads(f, cfg.packetsPerField)
  {
    hide Step, AtStart, Holds, CountMisleads, AllPresent;
    FlagIsTheCount(cfg, hs, ps, envs, i);
    AlwaysTracks(cfg, hs, ps, envs, i + 1);
    CountIsRight(cfg, hs[i + 1].st.id, hs[i + 1].field);
  }

  // ------------------------------------------------------------------------------------
  // Fields whose packets come in order

  // The payload of p is in its place.
  ghost predicate InPlace(buffer: seq<Byte>, p: Packet)
  {
    && G.ProgressiveOffset(p.number, 0) + G.PAYLOAD_SIZE <= |buffer|
    && buffer[G.ProgressiveOffset(p.number, 0)..][..G.PAYLOAD_SIZE] == p.payload
  }

  ghost predicate AllInPlace(buffer: seq<Byte>, seen: seq<Packet>)
  {
    forall j :: 0 <= j < |seen| ==> InPlace(buffer, seen[j])
  }

  // Until its last packet has come, a field's payloads are in the buffer.
  ghost predicate FieldOk(cfg: Config, h: History)
  {
    && |h.st.buffer| == BufferSize(cfg) && Tracks(cfg, h.st, h.field) && Ascending(h.field.seen)
    && (Ended(cfg, h.field) || AllInPlace(h.st.buffer, h.field.seen))
  }

  lemma OwnPayload(buffer: seq<Byte>, p: Packet)
    requires GoodPacket(p) && G.ProgressiveOffset(p.number, 0) + G.PAYLOAD_SIZE <= |buffer|
    ensures InPlace(ToProgressive(buffer, p), p)
  {}

  lemma OtherPayload(buffer: seq<Byte>, p: Packet, q: Packet)
    requires GoodPacket(p) && G.ProgressiveOffset(p.number, 0) + G.PAYLOAD_SIZE <= |buffer|
    requires InPlace(buffer, q) && q.number != p.number
    ensures InPlace(ToProgressive(buffer, p), q)
  {
    var at := G.ProgressiveOffset(q.number, 0);
    var b := ToProgressive(buffer, p);
    assert forall k :: 0 <= k < G.PAYLOAD_SIZE ==> b[at..][..G.PAYLOAD_SIZE][k] == buffer[at..][..G.PAYLOAD_SIZE][k];
  }

  // What a packet in order does before the field is judged: one more payload in place.
  lemma PayloadsInPlace(cfg: Config, h: History, p: Packet)
    requires cfg.scan.PROGRESSIVE? && GoodPacket(p) && InField(cfg, p)
    requires FieldOk(cfg, h) && InOrder(cfg, h.st, h.field, p)
    ensures AllInPlace(Copied(cfg, h.st.buffer, p), Extend(cfg, h.st, h.field, p).seen)
  {
    hide InPlace;
    var seen := Extend(cfg, h.st, h.field, p).seen;
    var b := Copied(cfg, h.st.buffer, p);
    forall j | 0 <= j < |seen| ensures InPlace(b, seen[j]) {
      if j < |seen| - 1 {
        assert InPlace(h.st.buffer, seen[j]);
        OtherPayload(h.st.buffer, p, seen[j]);
      } else {
        OwnPayload(h.st.buffer, p);
      }
    }
  }

  lemma StepKeepsField(cfg: Config, h: History, p: Packet, env: Env, h': History)
    requires StepsTo(cfg, h, p, env, h') && FieldOk(cfg, h) && InOrder(cfg, h.st, h.field, p)
    ensures FieldOk(cfg, h')
  {
    hide Step, Copied, AllInPlace, Tracks, Ascending, Opens;
    StepKeepsSize(cfg, h.st, p, env);
    StepTracks(cfg, h.st, h.field, p, env);
    ExtendsInOrder(cfg, h.st, h.field, p);
    if InField(cfg, p) && !IsLast(cfg, p) {
      InnerStep(cfg, h.st, p, env);
      PayloadsInPlace(cfg, h, p);
    } else if !InField(cfg, p) {
      OutsideStep(cfg, h.st, p, env);
    }
  }

  ghost predicate RunsInOrder(cfg: Config, hs: seq<History>, ps: seq<Packet>, i: nat)
    requires |hs| == |ps| + 1
  {
    forall k :: 0 <= k < i && k < |ps| ==> InOrder(cfg, hs[k].st, hs[k].field, ps[k])
  }

  lemma {:induction false} AlwaysFieldOk(cfg: Config, hs: seq<History>, ps: seq<Packet>, envs: seq<Env>, i: nat)
    requires Behaviour(cfg, hs, ps, envs) && AtStart(hs[0]) && i < |hs| && RunsInOrder(cfg, hs, ps, i)
    ensures FieldOk(cfg, hs[i])
  {
    hide Step, StepsTo, Next, Tracks, InOrder, Ended;
    if i == 0 {
      TracksNothing(cfg, hs[0].st);
    } else {
      AlwaysFieldOk(cfg, hs, ps, envs, i - 1);
      StepAt(cfg, hs, ps, envs, i - 1);
      assert InOrder(cfg, hs[i - 1].st, hs[i - 1].field, ps[i - 1]);
      StepKeepsField(cfg, hs[i - 1], ps[i - 1], envs[i - 1], hs[i]);
    }
  }

  function Payloads(seen: seq<Packet>): seq<Byte>
  {
    if seen == [] then [] else Payloads(seen[..|seen| - 1]) + seen[|seen| - 1].payload
  }

  lemma {:induction false} BufferIsPayloads(b: seq<Byte>, seen: seq<Packet>, k: nat)
    requires k <= |seen| && G.PAYLOAD_SIZE * k <= |b|
    requires forall j :: 0 <= j < k ==> seen[j].number == j && InPlace(b, seen[j])
    ensures b[..G.PAYLOAD_SIZE * k] == Payloads(seen[..k])
  {
    if k > 0 {
      BufferIsPayloads(b, seen, k - 1);
      var at := G.PAYLOAD_SIZE * (k - 1);
      assert seen[..k][..k - 1] == seen[..k - 1];
      assert InPlace(b, seen[k - 1]);
      assert b[at..][..G.PAYLOAD_SIZE] == b[at..at + G.PAYLOAD_SIZE];
      assert b[..at + G.PAYLOAD_SIZE] == b[..at] + b[at..at + G.PAYLOAD_SIZE];
    }
  }

  lemma {:induction false} FieldInBuffer(cfg: Config, b: seq<Byte>, seen: seq<Packet>, id: nat)
    requires !cfg.scan.INTERLEAVED? && |b| == BufferSize(cfg)
    requires IsField(seen, id, cfg.packetsPerField) && AllInPlace(b, seen)
    ensures b == Payloads(seen)
  {
    hide InPlace;
    BufferIsPayloads(b, seen, |seen|);
    assert seen[..|seen|] == seen && b[..|b|] == b;
  }

  // With packet numbers increasing within a field: a frame of whose field every packet arrived
  // is queued as complete and is the concatenation of their payloads; one with a packet missing
  // is queued as partial, unless the count of the last session makes up for what is missing.
  lemma CompleteIffAllPresent(cfg: Config, hs: seq<History>, ps: seq<Packet>, envs: seq<Env>, i: nat)
    requires Behaviour(cfg, hs, ps, envs) && AtStart(hs[0]) && i < |ps| && cfg.packetsPerField < WORD16
    requires RunsInOrder(cfg, hs, ps, i + 1)
    requires StepsTo(cfg, hs[i], ps[i], envs[i], hs[i + 1]) && Step(cfg, hs[i].st, ps[i], envs[i]).event.Queued?
    ensures var n, e, f := cfg.packetsPerField, Step(cfg, hs[i].st, ps[i], envs[i]).event, hs[i + 1].field;
      && (e.flag == Complete <==> AllPresent(f.seen, n) || StaleCompletes(f, n))
      && (AllPresent(f.seen, n) ==> e.buffer == Payloads(f.seen) && IsField(f.seen, ps[i].id, n))
      && (e.flag != Complete ==> e.flag == Partial)
  {
    hide Step, Copied, Payloads, AllInPlace, AllPresent, StaleCompletes, Holds, InOrder, Ended, AtStart;
    AlwaysFieldOk(cfg, hs, ps, envs, i);
    AlwaysFieldOk(cfg, hs, ps, envs, i + 1);
    FlagIsTheCount(cfg, hs, ps, envs, i);
    var f := hs[i + 1].field;
    InOrderVerdict(cfg, hs[i + 1].st.id, f);
    if AllPresent(f.seen, cfg.packetsPerField) {
      AllPresentIsComplete(cfg, hs, ps, envs, i);
    }
  }

  lemma LastHasId(cfg: Config, id: nat, f: Field)
    requires Holds(cfg, id, f) && f.seen != []
    ensures f.seen[|f.seen| - 1].id == id && f.seen[|f.seen| - 1].number < cfg.packetsPerField
  {
    assert Belongs(cfg, id, f.base, f.seen[|f.seen| - 1]);
  }

  // The part of the theorem about whole fields.
  lemma AllPresentIsComplete(cfg: Config, hs: seq<History>, ps: seq<Packet>, envs: seq<Env>, i: nat)
    requires Behaviour(cfg, hs, ps, envs) && AtStart(hs[0]) && i < |ps|
    requires RunsInOrder(cfg, hs, ps, i + 1) && FieldOk(cfg, hs[i]) && FieldOk(cfg, hs[i + 1])
    requires StepsTo(cfg, hs[i], ps[i], envs[i], hs[i + 1]) && Step(cfg, hs[i].st, ps[i], envs[i]).event.Queued?
    requires AllPresent(hs[i + 1].field.seen, cfg.packetsPerField)
    ensures var e, f := Step(cfg, hs[i].st, ps[i], envs[i]).event, hs[i + 1].field;
      && e.buffer == Payloads(f.seen) && IsField(f.seen, ps[i].id, cfg.packetsPerField)
  {
    hide Step, Copied, Payloads, AllInPlace, AllPresent, Holds, Ended, AtStart, Opens;
    var f := hs[i + 1].field;
    QueuedWithVerdict(cfg, hs[i].st, ps[i], envs[i]);
    assert InOrder(cfg, hs[i].st, hs[i].field, ps[i]);
    PayloadsInPlace(cfg, hs[i], ps[i]);
    FullIsField(cfg, hs[i + 1].st.id, f);
    LastHasId(cfg, hs[i + 1].st.id, f);
    FieldInBuffer(cfg, Copied(cfg, hs[i].st.buffer, ps[i]), f.seen, ps[i].id);
  }

  // ------------------------------------------------------------------------------------
  // The two counters

  // The first packet accepted opens a field.
  predicate BeginsField(cfg: Config, st: State, f: Field, p: Packet)
  {
    InField(cfg, p) && f.seen == [] ==> Opens(st, p)
  }

  ghost predicate CountersOk(cfg: Config, h: History)
  {
    && (h.st.flag.InProgress? <==> h.field.seen != [] && !Ended(cfg, h.field))
    && (h.field.seen != [] ==> h.field.base == 0)
    && h.orphans == 0 && h.st.incomplete == h.partial % WORD32
  }

  // A field in order has no more packets than its last number allows, so no count wraps.
  lemma CountIsSize(cfg: Config, st: State, f: Field, p: Packet)
    requires Tracks(cfg, st, f) && Ascending(f.seen) && f.seen != [] && f.base == 0 && cfg.packetsPerField < WORD16
    ensures st.done == |f.seen| <= cfg.packetsPerField
  {
    var k := |f.seen| - 1;
    NumbersAtLeast(f.seen, k);
    assert Belongs(cfg, st.id, f.base, f.seen[k]);
  }

  lemma StepCounts(cfg: Config, h: History, p: Packet, env: Env, h': History)
    requires StepsTo(cfg, h, p, env, h') && cfg.packetsPerField < WORD16
    requires FieldOk(cfg, h) && FieldOk(cfg, h') && CountersOk(cfg, h)
    requires InOrder(cfg, h.st, h.field, p) && BeginsField(cfg, h.st, h.field, p)
    ensures CountersOk(cfg, h')
  {
    hide Copied, Inc32, Ascending, AllInPlace, Holds, Belongs;
    IncWraps(h.partial);
    if InField(cfg, p) {
      if IsLast(cfg, p) && !Opens(h.st, p) {
        LastHasId(cfg, h.st.id, h.field);
      }
      CountIsSize(cfg, h'.st, h'.field, p);
    }
  }

  ghost predicate RunsBeginFields(cfg: Config, hs: seq<History>, ps: seq<Packet>, i: nat)
    requires |hs| == |ps| + 1
  {
    forall k :: 0 <= k < i && k < |ps| ==> BeginsField(cfg, hs[k].st, hs[k].field, ps[k])
  }

  lemma {:induction false} AlwaysCounted(cfg: Config, hs: seq<History>, ps: seq<Packet>, envs: seq<Env>, i: nat)
    requires Behaviour(cfg, hs, ps, envs) && AtStart(hs[0]) && i < |hs| && cfg.packetsPerField < WORD16
    requires RunsInOrder(cfg, hs, ps, i) && RunsBeginFields(cfg, hs, ps, i)
    ensures CountersOk(cfg, hs[i])
  {
    hide Step, StepsTo, Next, FieldOk, InOrder, BeginsField;
    if i > 0 {
      AlwaysCounted(cfg, hs, ps, envs, i - 1);
      AlwaysFieldOk(cfg, hs, ps, envs, i - 1);
      AlwaysFieldOk(cfg, hs, ps, envs, i);
      StepAt(cfg, hs, ps, envs, i - 1);
      assert InOrder(cfg, hs[i - 1].st, hs[i - 1].field, ps[i - 1]);
      assert BeginsField(cfg, hs[i - 1].st, hs[i - 1].field, ps[i - 1]);
      StepCounts(cfg, hs[i - 1], ps[i - 1], envs[i - 1], hs[i]);
    }
  }

  // Over a whole run: every field opened was queued, dropped or is in progress, and the two
  // counters (of 32 bits) count the frames dropped and the finished fields with packets missing.
  lemma EveryFieldIsAccountedFor(cfg: Config, hs: seq<History>, ps: seq<Packet>, envs: seq<Env>, i: nat)
    requires Behaviour(cfg, hs, ps, envs) && AtStart(hs[0]) && i < |hs| && cfg.packetsPerField < WORD16
    requires RunsInOrder(cfg, hs, ps, i) && RunsBeginFields(cfg, hs, ps, i)
    ensures var h := hs[i];
      && h.begun == h.queued + h.drops + Count(h.st.flag.InProgress?)
      && h.st.dropped == h.drops % WORD32 && h.st.incomplete == h.partial % WORD32
  {
    AlwaysBalanced(cfg, hs, ps, envs, i);
    AlwaysCounted(cfg, hs, ps, envs, i);
  }

  // ------------------------------------------------------------------------------------
  // Frames wrongly queued as complete

  // Packet numbers 1, 1, 2, ..., n - 1 of one field.
  ghost predicate FirstOneTwice(ps: seq<Packet>, id: nat, n: nat)
  {
    && |ps| == n
    && forall i :: 0 <= i < n ==> GoodPacket(ps[i]) && ps[i].id == id && ps[i].number == if i == 0 then 1 else i
  }

  lemma {:induction false} CountsSoFar(cfg: Config, st: State, ps: seq<Packet>, envs: seq<Env>, id: nat, k: nat)
    requires cfg.scan.PROGRESSIVE? && 3 <= cfg.packetsPerField < WORD16 && st.id != id
    requires FirstOneTwice(ps, id, cfg.packetsPerField) && GoodRun(cfg, st, ps, envs)
    requires 1 <= k < cfg.packetsPerField
    ensures GoodRun(cfg, st, ps[..k], envs[..k])
    ensures var t := Run(cfg, st, ps[..k], envs[..k]); t.st.id == id && t.st.done == k
  {
    hide Copied, Step;
    assert ps[..k][..k - 1] == ps[..k - 1] && envs[..k][..k - 1] == envs[..k - 1];
    if k > 1 {
      CountsSoFar(cfg, st, ps, envs, id, k - 1);
    }
    InnerStep(cfg, Run(cfg, st, ps[..k - 1], envs[..k - 1]).st, ps[k - 1], envs[k - 1]);
  }

  // The frame is queued as complete although packet 0 never came.
  lemma {:induction false} DuplicateHidesLoss(cfg: Config, st: State, ps: seq<Packet>, envs: seq<Env>, id: nat)
    requires cfg.scan.PROGRESSIVE? && 3 <= cfg.packetsPerField < WORD16 && st.id != id
    requires FirstOneTwice(ps, id, cfg.packetsPerField) && GoodRun(cfg, st, ps, envs)
    requires envs[cfg.packetsPerField - 1].accept
    ensures var e := Run(cfg, st, ps, envs).events[cfg.packetsPerField - 1]; e.Queued? && e.flag == Complete
    ensures !Present(ps, 0)
  {
    hide Step;
    var k := cfg.packetsPerField - 1;
    CountsSoFar(cfg, st, ps, envs, id, k);
    LastStep(cfg, Run(cfg, st, ps[..k], envs[..k]).st, ps[k], envs[k]);
  }

  lemma LastStep(cfg: Config, st: State, p: Packet, env: Env)
    requires cfg.scan.PROGRESSIVE? && Whole(cfg) && |st.buffer| == BufferSize(cfg) && GoodPacket(p) && env.accept
    requires st.id == p.id && 1 <= p.number && p.number + 1 == cfg.packetsPerField < WORD16 && st.done == p.number
    ensures var e := Step(cfg, st, p, env).event; e.Queued? && e.flag == Complete
  {
    hide Copied;
  }

  // The last session ended with a field of which all packets but the last had come; the next
  // one begins with a last packet of the same id.  This packet alone is queued as a complete frame.
  lemma StaleCountHidesLoss(cfg: Config, h: History, p: Packet, env: Env)
    requires cfg.scan.PROGRESSIVE? && 2 <= cfg.packetsPerField < WORD16
    requires AtStart(h) && |h.st.buffer| == BufferSize(cfg) && h.st.done == cfg.packetsPerField - 1
    requires GoodPacket(p) && p.id == h.st.id && IsLast(cfg, p) && GoodEnv(cfg, env)
    requires env == Env(true, env.buffer, Start)
    ensures Behaviour(cfg, [h, Next(cfg, h, p, env)], [p], [env])
    ensures var e, seen := Step(cfg, h.st, p, env).event, Next(cfg, h, p, env).field.seen;
      e.Queued? && e.flag == Complete && seen == [p] && Duplicates(seen) == 0 && !Present(seen, 0)
  {
    hide Copied;
    NoDuplicates([p]);
  }
}
