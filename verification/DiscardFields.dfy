/**
 What the frames queued in DISCARD mode contain: the odd fields alone.
 */
module DiscardFields {
  import opened Counting
  import opened FieldHistory
  import opened Reassembly
  import P = ProgressiveFields
  import G = Geometry

  ghost function StateAt(cfg: Config, st: State, ps: seq<Packet>, envs: seq<Env>, k: nat): (r: State)
    requires GoodRun(cfg, st, ps, envs) && k <= |ps|
    ensures |r.buffer| == BufferSize(cfg)
  {
    Run(cfg, st, ps[..k], envs[..k]).st
  }

  // The current field after k packets; the first packets continue what the last session left.
  ghost function FieldAt(cfg: Config, st: State, ps: seq<Packet>, envs: seq<Env>, k: nat): Field
    requires GoodRun(cfg, st, ps, envs) && k <= |ps|
  {
    if k == 0 then Field([], st.done)
    else Extend(cfg, StateAt(cfg, st, ps, envs, k - 1), FieldAt(cfg, st, ps, envs, k - 1), ps[k - 1])
  }

  lemma {:induction false} StateStep(cfg: Config, st: State, ps: seq<Packet>, envs: seq<Env>, k: nat)
    requires GoodRun(cfg, st, ps, envs) && k < |ps|
    ensures StateAt(cfg, st, ps, envs, 0) == st
    ensures var o := Step(cfg, StateAt(cfg, st, ps, envs, k), ps[k], envs[k]);
      StateAt(cfg, st, ps, envs, k + 1) == o.st && Run(cfg, st, ps, envs).events[k] == o.event
  {
    hide Step;
    RunAt(cfg, st, ps, envs, k);
    RunNothing(cfg, st);
    assert ps[..k + 1] == ps[..k] + [ps[k]] && envs[..k + 1] == envs[..k] + [envs[k]];
    RunSnoc(cfg, st, ps[..k], envs[..k], ps[k], envs[k]);
  }

  lemma {:induction false} AlwaysTracks(cfg: Config, st: State, ps: seq<Packet>, envs: seq<Env>, k: nat)
    requires GoodRun(cfg, st, ps, envs) && k <= |ps| && st.done < WORD16
    ensures Tracks(cfg, StateAt(cfg, st, ps, envs, k), FieldAt(cfg, st, ps, envs, k))
  {
    hide Step, Tracks, StateAt, Extend;
    if k == 0 {
      TracksNothing(cfg, st);
      assert StateAt(cfg, st, ps, envs, 0) == st by { StateAtStart(cfg, st, ps, envs); }
    } else {
      AlwaysTracks(cfg, st, ps, envs, k - 1);
      StateStep(cfg, st, ps, envs, k - 1);
      StepTracks(cfg, StateAt(cfg, st, ps, envs, k - 1), FieldAt(cfg, st, ps, envs, k - 1), ps[k - 1], envs[k - 1]);
    }
  }

  lemma StateAtStart(cfg: Config, st: State, ps: seq<Packet>, envs: seq<Env>)
    requires GoodRun(cfg, st, ps, envs)
    ensures StateAt(cfg, st, ps, envs, 0) == st
  {
    RunNothing(cfg, st);
  }

  // ------------------------------------------------------------------------------------
  // Which fields are queued

  lemma QueuesOddLast(cfg: Config, st: State, p: Packet, env: Env)
    requires cfg.scan.DISCARD? && |st.buffer| == BufferSize(cfg) && GoodPacket(p)
    ensures Step(cfg, st, p, env).event.Queued? <==> IsLast(cfg, p) && p.odd && env.accept
    ensures !p.odd ==> Step(cfg, st, p, env).st.buffer == st.buffer
  {
    hide ToProgressive;
  }

  // Over every run: a frame is queued exactly with the last packet of an odd field, if the queue
  // takes it, and its flag says whether the packets counted are as many as a field has; even
  // packets change nothing in the frame.
  lemma {:induction false} QueuedExactly(cfg: Config, st: State, ps: seq<Packet>, envs: seq<Env>, i: nat)
    requires cfg.scan.DISCARD? && GoodRun(cfg, st, ps, envs) && i < |ps| && st.done < WORD16
    ensures var e := Run(cfg, st, ps, envs).events[i];
      && (e.Queued? <==> IsLast(cfg, ps[i]) && ps[i].odd && envs[i].accept)
      && (e.Queued? ==> e.flag == Complete || e.flag == Partial)
      && (e.Queued? ==>
            (e.flag == Complete <==> Total(FieldAt(cfg, st, ps, envs, i + 1)) % WORD16 == cfg.packetsPerField))
    ensures !ps[i].odd ==> StateAt(cfg, st, ps, envs, i + 1).buffer == StateAt(cfg, st, ps, envs, i).buffer
  {
    hide Step, Run, Tracks, Verdict, StateAt;
    var s := StateAt(cfg, st, ps, envs, i);
    StateStep(cfg, st, ps, envs, i);
    AlwaysTracks(cfg, st, ps, envs, i);
    QueuesOddLast(cfg, s, ps[i], envs[i]);
    StepTracks(cfg, s, FieldAt(cfg, st, ps, envs, i), ps[i], envs[i]);
    if Step(cfg, s, ps[i], envs[i]).event.Queued? {
      QueuedWithVerdict(cfg, s, ps[i], envs[i]);
    }
  }

  // ------------------------------------------------------------------------------------
  // What is in the frames queued

  // A packet in order and of the parity of the field it belongs to.
  predicate Fitting(cfg: Config, st: State, f: Field, p: Packet)
  {
    && InOrder(cfg, st, f, p)
    && (InField(cfg, p) && !Opens(st, p) && f.seen != [] ==> f.seen[0].odd == p.odd)
  }

  ghost predicate RunFits(cfg: Config, st: State, ps: seq<Packet>, envs: seq<Env>, i: nat)
    requires GoodRun(cfg, st, ps, envs)
  {
    forall k :: 0 <= k < i && k < |ps| ==>
      Fitting(cfg, StateAt(cfg, st, ps, envs, k), FieldAt(cfg, st, ps, envs, k), ps[k])
  }

  predicate OfOddField(f: Field) { f.seen != [] && f.seen[0].odd }

  ghost predicate FieldOk(cfg: Config, st: State, f: Field)
  {
    && |st.buffer| == BufferSize(cfg) && Tracks(cfg, st, f) && Ascending(f.seen)
    && (OfOddField(f) && !Ended(cfg, f) ==> P.AllInPlace(st.buffer, f.seen))
  }

  // An odd packet in its turn: one more payload in place.
  lemma PayloadsInPlace(cfg: Config, st: State, f: Field, p: Packet)
    requires cfg.scan.DISCARD? && GoodPacket(p) && InField(cfg, p) && p.odd
    requires FieldOk(cfg, st, f) && Fitting(cfg, st, f, p)
    ensures P.AllInPlace(Copied(cfg, st.buffer, p), Extend(cfg, st, f, p).seen)
  {
    hide P.InPlace, Tracks;
    var seen := Extend(cfg, st, f, p).seen;
    var b := Copied(cfg, st.buffer, p);
    if !Opens(st, p) && f.seen != [] {
      NotEnded(cfg, st, f, p);
    }
    forall j | 0 <= j < |seen| ensures P.InPlace(b, seen[j]) {
      if j < |seen| - 1 {
        assert P.InPlace(st.buffer, seen[j]);
        P.OtherPayload(st.buffer, p, seen[j]);
      } else {
        P.OwnPayload(st.buffer, p);
      }
    }
  }

  // A field that goes on in order has not had its last packet.
  lemma NotEnded(cfg: Config, st: State, f: Field, p: Packet)
    requires InField(cfg, p) && !Opens(st, p) && f.seen != [] && InOrder(cfg, st, f, p)
    ensures !Ended(cfg, f)
  {}

  lemma StepKeepsField(cfg: Config, st: State, f: Field, p: Packet, env: Env)
    requires cfg.scan.DISCARD? && GoodPacket(p) && GoodEnv(cfg, env)
    requires FieldOk(cfg, st, f) && Fitting(cfg, st, f, p)
    ensures FieldOk(cfg, Step(cfg, st, p, env).st, Extend(cfg, st, f, p))
  {
    hide Step, Copied, P.AllInPlace, Tracks, Ascending;
    StepKeepsSize(cfg, st, p, env);
    StepTracks(cfg, st, f, p, env);
    ExtendsInOrder(cfg, st, f, p);
    if !InField(cfg, p) {
      OutsideStep(cfg, st, p, env);
    } else if !IsLast(cfg, p) {
      InnerStep(cfg, st, p, env);
      if p.odd {
        PayloadsInPlace(cfg, st, f, p);
      }
    }
  }

  lemma {:induction false} AlwaysFieldOk(cfg: Config, st: State, ps: seq<Packet>, envs: seq<Env>, k: nat)
    requires cfg.scan.DISCARD? && GoodRun(cfg, st, ps, envs) && k <= |ps| && st.done < WORD16
    requires RunFits(cfg, st, ps, envs, k)
    ensures FieldOk(cfg, StateAt(cfg, st, ps, envs, k), FieldAt(cfg, st, ps, envs, k))
  {
    hide Step, Run, Tracks, Fitting, Ended, StateAt, Extend;
    if k == 0 {
      TracksNothing(cfg, st);
      StateAtStart(cfg, st, ps, envs);
    } else {
      AlwaysFieldOk(cfg, st, ps, envs, k - 1);
      StateStep(cfg, st, ps, envs, k - 1);
      assert Fitting(cfg, StateAt(cfg, st, ps, envs, k - 1), FieldAt(cfg, st, ps, envs, k - 1), ps[k - 1]);
      StepKeepsField(cfg, StateAt(cfg, st, ps, envs, k - 1), FieldAt(cfg, st, ps, envs, k - 1), ps[k - 1], envs[k - 1]);
    }
  }

  // With packet numbers increasing within a field and fields of one parity: an odd field of which
  // every packet arrived is queued as complete, and its frame is the concatenation of its
  // payloads, whatever even fields came before; one with a packet missing is queued as partial,
  // unless the count of the last session makes up for what is missing.
  lemma {:induction false} OddFieldsAreQueued(cfg: Config, st: State, ps: seq<Packet>, envs: seq<Env>, i: nat)
    requires cfg.scan.DISCARD? && GoodRun(cfg, st, ps, envs) && i < |ps| && st.done < WORD16
    requires RunFits(cfg, st, ps, envs, i + 1) && 1 <= cfg.packetsPerField < WORD16
    requires Run(cfg, st, ps, envs).events[i].Queued?
    ensures var n, e, f := cfg.packetsPerField, Run(cfg, st, ps, envs).events[i], FieldAt(cfg, st, ps, envs, i + 1);
      && (e.flag == Complete <==> AllPresent(f.seen, n) || StaleCompletes(f, n))
      && (AllPresent(f.seen, n) ==> e.buffer == P.Payloads(f.seen) && IsField(f.seen, ps[i].id, n) && OfOddField(f))
      && (e.flag != Complete ==> e.flag == Partial)
  {
    hide Step, Run, Copied, P.Payloads, P.AllInPlace, AllPresent, StaleCompletes, Holds, Fitting, Ended, StateAt;
    hide Extend;
    AlwaysFieldOk(cfg, st, ps, envs, i + 1);
    QueuedExactly(cfg, st, ps, envs, i);
    var s, f := StateAt(cfg, st, ps, envs, i + 1), FieldAt(cfg, st, ps, envs, i + 1);
    InOrderVerdict(cfg, s.id, f);
    if AllPresent(f.seen, cfg.packetsPerField) {
      WholeFieldIsInFrame(cfg, st, ps, envs, i);
    }
  }

  lemma {:induction false} WholeFieldIsInFrame(cfg: Config, st: State, ps: seq<Packet>, envs: seq<Env>, i: nat)
    requires cfg.scan.DISCARD? && GoodRun(cfg, st, ps, envs) && i < |ps| && st.done < WORD16
    requires RunFits(cfg, st, ps, envs, i + 1) && 1 <= cfg.packetsPerField < WORD16
    requires Run(cfg, st, ps, envs).events[i].Queued?
    requires AllPresent(FieldAt(cfg, st, ps, envs, i + 1).seen, cfg.packetsPerField)
    ensures var e, f := Run(cfg, st, ps, envs).events[i], FieldAt(cfg, st, ps, envs, i + 1);
      && e.buffer == P.Payloads(f.seen) && IsField(f.seen, ps[i].id, cfg.packetsPerField) && OfOddField(f)
  {
    hide Step, Run, Copied, P.Payloads, P.AllInPlace, AllPresent, Holds, Ended, StateAt, Opens;
    var s, f, f' := StateAt(cfg, st, ps, envs, i), FieldAt(cfg, st, ps, envs, i), FieldAt(cfg, st, ps, envs, i + 1);
    AlwaysFieldOk(cfg, st, ps, envs, i);
    AlwaysFieldOk(cfg, st, ps, envs, i + 1);
    StateStep(cfg, st, ps, envs, i);
    QueuesOddLast(cfg, s, ps[i], envs[i]);
    QueuedWithVerdict(cfg, s, ps[i], envs[i]);
    assert Fitting(cfg, s, f, ps[i]);
    PayloadsInPlace(cfg, s, f, ps[i]);
    FullIsField(cfg, StateAt(cfg, st, ps, envs, i + 1).id, f');
    P.LastHasId(cfg, StateAt(cfg, st, ps, envs, i + 1).id, f');
    P.FieldInBuffer(cfg, Copied(cfg, s.buffer, ps[i]), f'.seen, ps[i].id);
  }
}
