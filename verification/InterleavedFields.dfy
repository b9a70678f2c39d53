/**
 How fields are paired in INTERLEAVED mode, and what the frames queued contain.
 */
module InterleavedFields {
  import opened FieldHistory
  import opened Reassembly
  import G = Geometry

  // ------------------------------------------------------------------------------------
  // Pairing

  // The parities of the fields that finish, that is, whose last packet comes.
  function FinishedOdds(cfg: Config, ps: seq<Packet>): seq<bool>
  {
    if ps == [] then []
    else
      var n := |ps| - 1;
      FinishedOdds(cfg, ps[..n]) + if IsLast(cfg, ps[n]) then [ps[n].odd] else []
  }

  // _secondFrame after fields of these parities have finished: a field that finds it set clears
  // it, an odd field that does not sets it.
  function Pending(second: bool, odds: seq<bool>): bool
  {
    if odds == [] then second
    else
      var n := |odds| - 1;
      !Pending(second, odds[..n]) && odds[n]
  }

  lemma {:induction false} PendingSnoc(second: bool, odds: seq<bool>, odd: bool)
    ensures Pending(second, odds + [odd]) == (!Pending(second, odds) && odd)
  {
    assert (odds + [odd])[..|odds|] == odds;
  }

  lemma StepPairs(cfg: Config, st: State, p: Packet, env: Env)
    requires cfg.scan.INTERLEAVED? && Whole(cfg) && |st.buffer| == BufferSize(cfg) && GoodPacket(p)
    ensures var o := Step(cfg, st, p, env);
      && o.st.second == (if IsLast(cfg, p) then !st.second && p.odd else st.second)
      && (o.event.Queued? <==> IsLast(cfg, p) && st.second && env.accept)
  {
    hide Copied;
  }

  // Whatever packets come, the pairing depends on nothing but the fields that finish.
  lemma {:induction false} PairingFollowsFields(cfg: Config, st: State, ps: seq<Packet>, envs: seq<Env>)
    requires cfg.scan.INTERLEAVED? && GoodRun(cfg, st, ps, envs)
    ensures Run(cfg, st, ps, envs).st.second == Pending(st.second, FinishedOdds(cfg, ps))
  {
    hide Step, GoodEnv, Pending;
    if ps == [] {
      RunNothing(cfg, st);
      PendingNothing(st.second);
    } else {
      var n := |ps| - 1;
      PairingFollowsFields(cfg, st, ps[..n], envs[..n]);
      StepPairs(cfg, Run(cfg, st, ps[..n], envs[..n]).st, ps[n], envs[n]);
      var before := FinishedOdds(cfg, ps[..n]);
      PendingSnoc(st.second, before, ps[n].odd);
      assert FinishedOdds(cfg, ps) == if IsLast(cfg, ps[n]) then before + [ps[n].odd] else before;
    }
  }

  lemma {:induction false} PendingNothing(second: bool)
    ensures Pending(second, []) == second
  {}

  // An odd field followed by an even one.
  predicate ProperPair(odds: seq<bool>, odd: bool) { odds != [] && odds[|odds| - 1] && !odd }

  lemma {:induction false} PendingAfterOdd(second: bool, odds: seq<bool>)
    requires odds != [] && Pending(second, odds)
    ensures odds[|odds| - 1]
  {}

  // Of the frames of a run: one is queued with exactly the last packets that find _secondFrame
  // set and the queue ready.  Unless it is the first field to finish, the field before it is
  // odd, so the pair is proper exactly if its own field is even.
  lemma {:induction false} QueuedExactly(cfg: Config, st: State, ps: seq<Packet>, envs: seq<Env>, i: nat)
    requires cfg.scan.INTERLEAVED? && GoodRun(cfg, st, ps, envs) && i < |ps|
    ensures var e, before := Run(cfg, st, ps, envs).events[i], FinishedOdds(cfg, ps[..i]);
      && (e.Queued? <==> IsLast(cfg, ps[i]) && Pending(st.second, before) && envs[i].accept)
      && (e.Queued? && before != [] ==> (ProperPair(before, ps[i].odd) <==> !ps[i].odd))
  {
    hide Step, GoodEnv, Pending, FinishedOdds, Run;
    RunAt(cfg, st, ps, envs, i);
    PairingFollowsFields(cfg, st, ps[..i], envs[..i]);
    var t := Run(cfg, st, ps[..i], envs[..i]);
    StepPairs(cfg, t.st, ps[i], envs[i]);
    if t.st.second && FinishedOdds(cfg, ps[..i]) != [] {
      PendingAfterOdd(st.second, FinishedOdds(cfg, ps[..i]));
    }
  }

  ghost predicate Alternating(odds: seq<bool>) { forall i :: 1 <= i < |odds| ==> odds[i] != odds[i - 1] }

  // From the second field on every odd one is found pending by the field after it.
  lemma {:induction false} PendingAlternates(second: bool, odds: seq<bool>)
    requires Alternating(odds) && |odds| >= 2 && odds[|odds| - 1]
    ensures Pending(second, odds)
  {
    var n := |odds| - 1;
    assert odds[n] != odds[n - 1];
    assert odds[..n][n - 1] == odds[n - 1];
  }

  lemma {:induction false} OddsGrow(cfg: Config, ps: seq<Packet>, i: nat)
    requires i <= |ps|
    ensures FinishedOdds(cfg, ps[..i]) <= FinishedOdds(cfg, ps)
    decreases |ps|
  {
    if i < |ps| {
      var n := |ps| - 1;
      OddsGrow(cfg, ps[..n], i);
      assert ps[..n][..i] == ps[..i];
    } else {
      assert ps[..i] == ps;
    }
  }

  lemma {:induction false} OddsSnoc(cfg: Config, ps: seq<Packet>, i: nat)
    requires i < |ps|
    ensures FinishedOdds(cfg, ps[..i + 1]) ==
      FinishedOdds(cfg, ps[..i]) + if IsLast(cfg, ps[i]) then [ps[i].odd] else []
  {
    assert ps[..i + 1][..i] == ps[..i];
  }

  // Re-synchronisation: if the fields that finish are alternately odd and even, then from
  // whatever value of _secondFrame the run starts, every frame is a proper pair but possibly one
  // queued with the very first field, and from the third on every even field is one to queue.
  lemma {:induction false} PairingResynchronises(cfg: Config, st: State, ps: seq<Packet>, envs: seq<Env>, i: nat)
    requires cfg.scan.INTERLEAVED? && GoodRun(cfg, st, ps, envs) && i < |ps|
    requires Alternating(FinishedOdds(cfg, ps))
    ensures var e, before := Run(cfg, st, ps, envs).events[i], FinishedOdds(cfg, ps[..i]);
      && (e.Queued? && before != [] ==> ProperPair(before, ps[i].odd))
      && (IsLast(cfg, ps[i]) && !ps[i].odd && |before| >= 2 ==> (e.Queued? <==> envs[i].accept))
  {
    hide Run, GoodEnv, Pending, FinishedOdds;
    QueuedExactly(cfg, st, ps, envs, i);
    if IsLast(cfg, ps[i]) {
      var before := FinishedOdds(cfg, ps[..i]);
      OddsSnoc(cfg, ps, i);
      OddsGrow(cfg, ps, i + 1);
      var all := FinishedOdds(cfg, ps);
      assert all[..|before| + 1] == before + [ps[i].odd];
      assert Alternating(before) by {
        assert forall k :: 0 <= k < |before| ==> before[k] == all[k];
      }
      if before != [] {
        assert all[|before|] == ps[i].odd && all[|before| - 1] == before[|before| - 1];
        if Pending(st.second, before) {
          PendingAfterOdd(st.second, before);
        }
        if |before| >= 2 && !ps[i].odd {
          PendingAlternates(st.second, before);
        }
      }
    }
  }

  // ------------------------------------------------------------------------------------
  // A whole field

  function FieldPackets(id: nat, odd: bool, payloads: seq<seq<Byte>>): (r: seq<Packet>)
    ensures |r| == |payloads|
  {
    seq(|payloads|, k requires 0 <= k < |payloads| => Packet(id, k, odd, payloads[k]))
  }

  ghost predicate GoodField(cfg: Config, payloads: seq<seq<Byte>>, envs: seq<Env>)
  {
    && cfg.scan.INTERLEAVED? && Whole(cfg) && 1 <= cfg.packetsPerField == |payloads| == |envs|
      && cfg.packetsPerField < WORD16
    && (forall k :: 0 <= k < |payloads| ==> |payloads[k]| == G.PAYLOAD_SIZE)
    && (forall k :: 0 <= k < |envs| ==> GoodEnv(cfg, envs[k]))
  }

  // The byte of the odd or even field that belongs at an offset, once n packets of it are in.
  ghost predicate Laid(before: seq<Byte>, after: seq<Byte>, odd: bool, payloads: seq<seq<Byte>>, n: nat)
    requires forall k :: 0 <= k < |payloads| ==> |payloads[k]| == G.PAYLOAD_SIZE
  {
    && |after| == |before| && n <= |payloads|
    && forall o :: 0 <= o < |before| ==> after[o] == LaidByte(before[o], G.PlaceAt(o), odd, payloads, n)
  }

  function LaidByte(old0: Byte, pl: G.Place, odd: bool, payloads: seq<seq<Byte>>, n: nat): Byte
    requires n <= |payloads| && forall k :: 0 <= k < |payloads| ==> |payloads[k]| == G.PAYLOAD_SIZE
  {
    if pl.odd == odd && pl.packet < n && pl.byte < G.PAYLOAD_SIZE then payloads[pl.packet][pl.byte] else old0
  }

  lemma LaysOneMore(cfg: Config, before: seq<Byte>, b: seq<Byte>, id: nat, odd: bool, payloads: seq<seq<Byte>>, n: nat)
    requires cfg.scan.INTERLEAVED? && Whole(cfg) && |before| == BufferSize(cfg) && n < cfg.packetsPerField == |payloads|
    requires forall k :: 0 <= k < |payloads| ==> |payloads[k]| == G.PAYLOAD_SIZE
    requires Laid(before, b, odd, payloads, n)
    ensures Laid(before, Copied(cfg, b, Packet(id, n, odd, payloads[n])), odd, payloads, n + 1)
  {
    var p := Packet(id, n, odd, payloads[n]);
    HalvesFit(n, 0, odd, cfg.packetsPerField);
    HalvesFit(n, 1, odd, cfg.packetsPerField);
    var c := Copied(cfg, b, p);
    forall o | 0 <= o < |before| ensures c[o] == LaidByte(before[o], G.PlaceAt(o), odd, payloads, n + 1) {
      InterleavedWrites(b, p, o);
      assert b[o] == LaidByte(before[o], G.PlaceAt(o), odd, payloads, n);
    }
  }

  lemma LaidNothing(before: seq<Byte>, odd: bool, payloads: seq<seq<Byte>>)
    requires forall k :: 0 <= k < |payloads| ==> |payloads[k]| == G.PAYLOAD_SIZE
    ensures Laid(before, before, odd, payloads, 0)
  {}

  // All packets but the last: the field is in progress and its bytes are in their places.
  lemma {:induction false} FieldSoFar(cfg: Config, st: State, id: nat, odd: bool, payloads: seq<seq<Byte>>,
                                      envs: seq<Env>, n: nat)
    requires GoodField(cfg, payloads, envs) && |st.buffer| == BufferSize(cfg) && 1 <= n < cfg.packetsPerField
    ensures GoodRun(cfg, st, FieldPackets(id, odd, payloads)[..n], envs[..n])
    ensures var t := Run(cfg, st, FieldPackets(id, odd, payloads)[..n], envs[..n]);
      && t.st.id == id && t.st.done == n && t.st.flag == InProgress && t.st.second == st.second
      && t.events == seq(n, i => Nothing) && Laid(st.buffer, t.st.buffer, odd, payloads, n)
  {
    hide Step, Copied, Laid;
    var f := FieldPackets(id, odd, payloads);
    GoodPrefix(cfg, st, id, odd, payloads, envs, n);
    var m := n - 1;
    assert f[..n][..m] == f[..m] && envs[..n][..m] == envs[..m];
    GoodPrefix(cfg, st, id, odd, payloads, envs, m);
    var t := Run(cfg, st, f[..m], envs[..m]);
    if n == 1 {
      LaidNothing(st.buffer, odd, payloads);
    } else {
      FieldSoFar(cfg, st, id, odd, payloads, envs, m);
    }
    InnerStep(cfg, t.st, f[m], envs[m]);
    LaysOneMore(cfg, st.buffer, t.st.buffer, id, odd, payloads, m);
    assert t.events + [Nothing] == seq(n, i => Nothing);
  }

  lemma GoodPrefix(cfg: Config, st: State, id: nat, odd: bool, payloads: seq<seq<Byte>>, envs: seq<Env>, n: nat)
    requires GoodField(cfg, payloads, envs) && |st.buffer| == BufferSize(cfg) && n <= cfg.packetsPerField
    ensures GoodRun(cfg, st, FieldPackets(id, odd, payloads)[..n], envs[..n])
  {}

  // The last packet of a field that arrived whole.
  lemma LastStep(cfg: Config, st: State, p: Packet, env: Env)
    requires cfg.scan.INTERLEAVED? && Whole(cfg) && |st.buffer| == BufferSize(cfg) && GoodPacket(p)
    requires 1 <= p.number && p.number + 1 == cfg.packetsPerField < WORD16
    requires st.id == p.id && st.flag.InProgress? && st.done == p.number
    ensures var o := Step(cfg, st, p, env); var b := Copied(cfg, st.buffer, p);
      && o.st.second == (if st.second then false else p.odd)
      && (if st.second && env.accept then o.event == Queued(Complete, b) && o.st.buffer == env.buffer
          else o.event == Nothing && o.st.buffer == b)
  {
    hide Copied;
  }

  // A field that arrives whole: its bytes are laid over what the frame held before, and the
  // frame is queued with its last packet if it is the second one.
  lemma WholeField(cfg: Config, st: State, id: nat, odd: bool, payloads: seq<seq<Byte>>, envs: seq<Env>)
      returns (b: seq<Byte>)
    requires GoodField(cfg, payloads, envs) && |st.buffer| == BufferSize(cfg)
    ensures GoodRun(cfg, st, FieldPackets(id, odd, payloads), envs) && Laid(st.buffer, b, odd, payloads, |payloads|)
    ensures var t := Run(cfg, st, FieldPackets(id, odd, payloads), envs); var n := |payloads| - 1;
      && t.events[..n] == seq(n, i => Nothing)
      && t.st.second == (if st.second then false else odd)
      && (if st.second && envs[n].accept then t.events[n] == Queued(Complete, b) && t.st.buffer == envs[n].buffer
          else t.events[n] == Nothing && t.st.buffer == b)
  {
    hide Step, Copied, Laid;
    var f := FieldPackets(id, odd, payloads);
    var n := |payloads| - 1;
    GoodPrefix(cfg, st, id, odd, payloads, envs, |payloads|);
    assert f[..|payloads|] == f && envs[..|payloads|] == envs;
    FieldSoFar(cfg, st, id, odd, payloads, envs, n);
    var t := Run(cfg, st, f[..n], envs[..n]);
    b := Copied(cfg, t.st.buffer, f[n]);
    LaysOneMore(cfg, st.buffer, t.st.buffer, id, odd, payloads, n);
    LastStep(cfg, t.st, f[n], envs[n]);
  }

  // Every line of the frame is a line of the field it belongs to.
  ghost predicate Woven(b: seq<Byte>, odds: seq<seq<Byte>>, evens: seq<seq<Byte>>)
    requires forall k :: 0 <= k < |odds| ==> |odds[k]| == G.PAYLOAD_SIZE
    requires forall k :: 0 <= k < |evens| ==> |evens[k]| == G.PAYLOAD_SIZE
  {
    forall o :: 0 <= o < |b| ==>
      var pl := G.PlaceAt(o);
      pl.byte < G.PAYLOAD_SIZE && pl.packet < |odds| == |evens|
        && b[o] == (if pl.odd then odds else evens)[pl.packet][pl.byte]
  }

  lemma LaidTwiceIsWoven(cfg: Config, before: seq<Byte>, middle: seq<Byte>, after: seq<Byte>, odds: seq<seq<Byte>>,
                         evens: seq<seq<Byte>>)
    requires cfg.scan.INTERLEAVED? && cfg.packetsPerField == |odds| == |evens| && |before| == BufferSize(cfg)
    requires Whole(cfg)
    requires forall k :: 0 <= k < |odds| ==> |odds[k]| == G.PAYLOAD_SIZE
    requires forall k :: 0 <= k < |evens| ==> |evens[k]| == G.PAYLOAD_SIZE
    requires Laid(before, middle, true, odds, |odds|) && Laid(middle, after, false, evens, |evens|)
    ensures Woven(after, odds, evens)
  {
    forall o | 0 <= o < |after|
      ensures var pl := G.PlaceAt(o);
        pl.byte < G.PAYLOAD_SIZE && pl.packet < |odds| == |evens|
          && after[o] == (if pl.odd then odds else evens)[pl.packet][pl.byte]
    {
      G.OffsetOfPlace(o);
      PlaceInField(cfg.packetsPerField, o);
      assert middle[o] == LaidByte(before[o], G.PlaceAt(o), true, odds, |odds|);
      assert after[o] == LaidByte(middle[o], G.PlaceAt(o), false, evens, |evens|);
    }
  }

  lemma PlaceInField(packetsPerField: nat, o: nat)
    requires packetsPerField % 3 == 0 && o < 2 * packetsPerField * G.PAYLOAD_SIZE
    ensures G.PlaceAt(o).packet < packetsPerField
  {
    hide G.PlaceAt, G.InterleavedOffset;
    var h := 4 * (packetsPerField / 3);
    G.FieldSizes(h);
    G.OffsetOfPlace(o);
    G.InterleavedTilesExactly(h);
    assert G.InterleavedOffset(G.PlaceAt(o)) < G.FrameSize(h);
  }

  // An odd field and the even field after it, both whole.
  datatype Pair = Pair(oddId: nat, odds: seq<seq<Byte>>, evenId: nat, evens: seq<seq<Byte>>)

  ghost predicate WholePair(cfg: Config, q: Pair)
  {
    && |q.odds| == |q.evens| == cfg.packetsPerField
    && (forall k :: 0 <= k < |q.odds| ==> |q.odds[k]| == G.PAYLOAD_SIZE)
    && (forall k :: 0 <= k < |q.evens| ==> |q.evens[k]| == G.PAYLOAD_SIZE)
  }

  function PairPackets(q: Pair): seq<Packet>
  {
    FieldPackets(q.oddId, true, q.odds) + FieldPackets(q.evenId, false, q.evens)
  }

  // The events of a pair, from position lo on: one frame is queued, with the last packet and if
  // the queue takes it, and it is the weave of the two fields.
  ghost predicate Weaves(cfg: Config, q: Pair, events: seq<Event>, envs: seq<Env>, lo: nat)
    requires WholePair(cfg, q)
  {
    var hi := lo + 2 * cfg.packetsPerField - 1;
    && lo <= hi < |events| == |envs|
    && (forall i :: lo <= i < hi ==> events[i] == Nothing)
    && (if envs[hi].accept then
          events[hi].Queued? && events[hi].flag == Complete && Woven(events[hi].buffer, q.odds, q.evens)
        else events[hi] == Nothing)
  }

  lemma PairSplits(cfg: Config, q: Pair, envs: seq<Env>)
    requires GoodPairs(cfg, [q], envs)
    ensures var n := cfg.packetsPerField;
      |envs| == 2 * n && WholePair(cfg, q) && GoodField(cfg, q.odds, envs[..n]) && GoodField(cfg, q.evens, envs[n..])
  {
    assert [q][0] == q;
    assert PairEnd(cfg, 1) == PairEnd(cfg, 0) + 2 * cfg.packetsPerField;
  }

  // The events of two whole fields, one after the other.
  lemma TwoFields(n: nat, first: seq<Event>, second: seq<Event>, i: nat)
    requires 1 <= n == |first| == |second| && i < 2 * n - 1
    requires first[..n - 1] == seq(n - 1, j => Nothing) && second[..n - 1] == seq(n - 1, j => Nothing)
    requires first[n - 1] == Nothing
    ensures (first + second)[i] == Nothing
  {
    if i < n - 1 {
      assert first[i] == first[..n - 1][i];
    } else if i >= n {
      assert second[i - n] == second[..n - 1][i - n];
    }
  }

  lemma {:induction false} PairIsWoven(cfg: Config, st: State, q: Pair, envs: seq<Env>)
    requires GoodPairs(cfg, [q], envs) && WholePair(cfg, q) && |st.buffer| == BufferSize(cfg) && !st.second
    ensures GoodRun(cfg, st, PairPackets(q), envs)
    ensures var t := Run(cfg, st, PairPackets(q), envs); Weaves(cfg, q, t.events, envs, 0) && !t.st.second
  {
    hide Laid, GoodRun, Run, Woven, GoodPairs, FieldPackets, BufferSize;
    var n := cfg.packetsPerField;
    PairSplits(cfg, q, envs);
    var f, g := FieldPackets(q.oddId, true, q.odds), FieldPackets(q.evenId, false, q.evens);
    var es, fs := envs[..n], envs[n..];
    assert envs == es + fs;
    var middle := WholeField(cfg, st, q.oddId, true, q.odds, es);
    var t := Run(cfg, st, f, es);
    var after := WholeField(cfg, t.st, q.evenId, false, q.evens, fs);
    RunConcat(cfg, st, f, es, g, fs);
    LaidTwiceIsWoven(cfg, st.buffer, middle, after, q.odds, q.evens);
    var u := Run(cfg, t.st, g, fs);
    forall i: nat | i < 2 * n - 1 ensures (t.events + u.events)[i] == Nothing {
      TwoFields(n, t.events, u.events, i);
    }
  }

  function PairStream(qs: seq<Pair>): seq<Packet>
  {
    if qs == [] then [] else PairStream(qs[..|qs| - 1]) + PairPackets(qs[|qs| - 1])
  }

  // Where the k-th pair of a stream begins.
  function PairEnd(cfg: Config, k: nat): nat { if k == 0 then 0 else PairEnd(cfg, k - 1) + 2 * cfg.packetsPerField }

  ghost predicate GoodPairs(cfg: Config, qs: seq<Pair>, envs: seq<Env>)
  {
    && cfg.scan.INTERLEAVED? && Whole(cfg) && 1 <= cfg.packetsPerField < WORD16
    && |envs| == PairEnd(cfg, |qs|)
    && (forall k :: 0 <= k < |qs| ==> WholePair(cfg, qs[k]))
    && (forall k :: 0 <= k < |envs| ==> GoodEnv(cfg, envs[k]))
  }

  lemma WeavesStill(cfg: Config, q: Pair, events: seq<Event>, envs: seq<Env>, lo: nat, more: seq<Event>, fs: seq<Env>)
    requires WholePair(cfg, q) && Weaves(cfg, q, events, envs, lo) && |more| == |fs|
    ensures Weaves(cfg, q, events + more, envs + fs, lo)
  {
    hide Woven;
  }

  lemma WeavesLater(cfg: Config, q: Pair, events: seq<Event>, envs: seq<Env>, less: seq<Event>, es: seq<Env>)
    requires WholePair(cfg, q) && Weaves(cfg, q, events, envs, 0) && |less| == |es|
    ensures Weaves(cfg, q, less + events, es + envs, |less|)
  {
    hide Woven;
    var n := 2 * cfg.packetsPerField - 1;
    forall i | |less| <= i < |less| + n ensures (less + events)[i] == Nothing {
      assert (less + events)[i] == events[i - |less|];
    }
  }

  // Once the driver is in step, every pair of a stream of whole pairs yields its weave.
  lemma {:induction false} PairsAreWoven(cfg: Config, st: State, qs: seq<Pair>, envs: seq<Env>)
    requires GoodPairs(cfg, qs, envs) && |st.buffer| == BufferSize(cfg) && !st.second
    ensures GoodRun(cfg, st, PairStream(qs), envs)
    ensures var t := Run(cfg, st, PairStream(qs), envs);
      !t.st.second && forall k :: 0 <= k < |qs| ==> Weaves(cfg, qs[k], t.events, envs, PairEnd(cfg, k))
  {
    hide GoodRun, Weaves, PairPackets, Run, BufferSize;
    if qs == [] {
      EmptyRun(cfg, st);
    } else {
      var m := |qs| - 1;
      var es, fs := envs[..PairEnd(cfg, m)], envs[PairEnd(cfg, m)..];
      assert envs == es + fs;
      GoodPairsSplit(cfg, qs, envs);
      PairsAreWoven(cfg, st, qs[..m], es);
      var t := Run(cfg, st, PairStream(qs[..m]), es);
      PairIsWoven(cfg, t.st, qs[m], fs);
      RunConcat(cfg, st, PairStream(qs[..m]), es, PairPackets(qs[m]), fs);
      var u := Run(cfg, t.st, PairPackets(qs[m]), fs);
      RunLengths(cfg, st, PairStream(qs[..m]), es);
      RunLengths(cfg, t.st, PairPackets(qs[m]), fs);
      forall k | 0 <= k < |qs| ensures Weaves(cfg, qs[k], t.events + u.events, es + fs, PairEnd(cfg, k)) {
        if k < m {
          assert qs[..m][k] == qs[k];
          WeavesStill(cfg, qs[k], t.events, es, PairEnd(cfg, k), u.events, fs);
        } else {
          WeavesLater(cfg, qs[m], u.events, fs, t.events, es);
        }
      }
    }
  }

  lemma {:induction false} RunLengths(cfg: Config, st: State, ps: seq<Packet>, envs: seq<Env>)
    requires GoodRun(cfg, st, ps, envs)
    ensures |Run(cfg, st, ps, envs).events| == |envs| && |Run(cfg, st, ps, envs).st.buffer| == BufferSize(cfg)
  {}

  lemma {:induction false} EmptyRun(cfg: Config, st: State)
    requires Whole(cfg) && |st.buffer| == BufferSize(cfg)
    ensures GoodRun(cfg, st, [], []) && Run(cfg, st, [], []) == Trace(st, [])
  {}

  lemma {:induction false} GoodPairsSplit(cfg: Config, qs: seq<Pair>, envs: seq<Env>)
    requires GoodPairs(cfg, qs, envs) && qs != []
    ensures var m := |qs| - 1; var at := PairEnd(cfg, m);
      at <= |envs| && GoodPairs(cfg, qs[..m], envs[..at]) && GoodPairs(cfg, [qs[m]], envs[at..])
        && WholePair(cfg, qs[m])
  {
    assert PairEnd(cfg, 1) == PairEnd(cfg, 0) + 2 * cfg.packetsPerField;
  }

  // ------------------------------------------------------------------------------------
  // What goes wrong

  lemma {:induction false} OddsConcat(cfg: Config, ps: seq<Packet>, qs: seq<Packet>)
    ensures FinishedOdds(cfg, ps + qs) == FinishedOdds(cfg, ps) + FinishedOdds(cfg, qs)
    decreases |qs|
  {
    if qs == [] {
      assert ps + qs == ps;
    } else {
      var n := |qs| - 1;
      OddsConcat(cfg, ps, qs[..n]);
      assert (ps + qs)[..|ps| + n] == ps + qs[..n];
    }
  }

  lemma {:induction false} OddsOfField(cfg: Config, id: nat, odd: bool, payloads: seq<seq<Byte>>, n: nat)
    requires n <= |payloads| == cfg.packetsPerField && 1 <= cfg.packetsPerField
    ensures FinishedOdds(cfg, FieldPackets(id, odd, payloads)[..n]) == if n == |payloads| then [odd] else []
    decreases n
  {
    if n > 0 {
      OddsOfField(cfg, id, odd, payloads, n - 1);
      OddsSnoc(cfg, FieldPackets(id, odd, payloads), n - 1);
    }
  }

  // An odd field, an even one that has lost its last packet, and another odd one: the two odd
  // fields are paired, and the frame is queued as complete.
  lemma {:induction false} LostPacketMispairs(cfg: Config, st: State, ids: (nat, nat, nat),
                           first: seq<seq<Byte>>, lost: seq<seq<Byte>>, third: seq<seq<Byte>>,
                           es: seq<Env>, fs: seq<Env>, gs: seq<Env>)
    requires GoodField(cfg, first, es) && GoodField(cfg, lost, fs) && GoodField(cfg, third, gs)
    requires |st.buffer| == BufferSize(cfg) && !st.second && gs[|gs| - 1].accept
    ensures var n := cfg.packetsPerField;
      var ps := FieldPackets(ids.0, true, first) + FieldPackets(ids.1, false, lost)[..n - 1]
        + FieldPackets(ids.2, true, third);
      var envs := es + fs[..n - 1] + gs;
      && GoodRun(cfg, st, ps, envs)
      && FinishedOdds(cfg, ps) == [true, true]
      && var e := Run(cfg, st, ps, envs).events[|ps| - 1]; e.Queued? && e.flag == Complete
  {
    hide Laid, GoodRun, Run, FieldPackets, FinishedOdds, BufferSize;
    var n := cfg.packetsPerField;
    assert n >= 3;
    var f, g, h := FieldPackets(ids.0, true, first), FieldPackets(ids.1, false, lost)[..n - 1],
      FieldPackets(ids.2, true, third);
    var b1 := WholeField(cfg, st, ids.0, true, first, es);
    var t := Run(cfg, st, f, es);
    FieldSoFar(cfg, t.st, ids.1, false, lost, fs, n - 1);
    RunConcat(cfg, st, f, es, g, fs[..n - 1]);
    var u := Run(cfg, t.st, g, fs[..n - 1]);
    var b2 := WholeField(cfg, u.st, ids.2, true, third, gs);
    RunConcat(cfg, st, f + g, es + fs[..n - 1], h, gs);
    OddsConcat(cfg, f + g, h);
    OddsConcat(cfg, f, g);
    OddsOfField(cfg, ids.0, true, first, n);
    OddsOfField(cfg, ids.1, false, lost, n - 1);
    OddsOfField(cfg, ids.2, true, third, n);
    assert f[..n] == f && h[..n] == h;
  }

  // The flag speaks of the last field only.  An odd field of which nothing but the last packet
  // came, followed by a whole even field, is queued as complete.
  lemma {:induction false} LossInFirstFieldIsForgotten(cfg: Config, st: State, p: Packet, env: Env,
                                    id: nat, evens: seq<seq<Byte>>, fs: seq<Env>)
    requires GoodField(cfg, evens, fs) && |st.buffer| == BufferSize(cfg) && GoodPacket(p) && GoodEnv(cfg, env)
    requires !st.second && p.odd && p.id != st.id && IsLast(cfg, p) && fs[|fs| - 1].accept
    ensures var ps := [p] + FieldPackets(id, false, evens);
      && GoodRun(cfg, st, ps, [env] + fs)
      && var e := Run(cfg, st, ps, [env] + fs).events[|ps| - 1]; e.Queued? && e.flag == Complete
  {
    hide Laid, FieldPackets, Run, Step, BufferSize;
    assert cfg.packetsPerField >= 3;
    RunNothing(cfg, st);
    RunSnoc(cfg, st, [], [], p, env);
    assert [] + [p] == [p] && [] + [env] == [env];
    StepPairs(cfg, st, p, env);
    var t := Run(cfg, st, [p], [env]);
    var b := WholeField(cfg, t.st, id, false, evens, fs);
    RunConcat(cfg, st, [p], [env], FieldPackets(id, false, evens), fs);
  }
}
