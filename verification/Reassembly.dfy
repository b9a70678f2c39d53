/**
 Frame reassembly of `UsbTvDriver.cpp`, packet by packet, as functions of the state that the
 USB thread keeps: what each step of class UsbTvDriver computes.

 An Env is what the surroundings decide: whether the process queue takes a frame, and the frame
 fetched from the pool next.  `_packetsDone` has 16 bits and the two counters 32.
 */
module Reassembly {
  import opened Modular
  import G = Geometry
  import D = DeviceParameters

  type Byte = bv8

  const WORD16: nat := 0x1_0000
  const WORD32: nat := 0x1_0000_0000

  // The flag words the driver stores in a frame: 0, FRAME_START, FRAME_IN_PROGRESS,
  // FRAME_COMPLETE and FRAME_PARTIAL.
  datatype Flag = NoFlag | Start | InProgress | Complete | Partial

  datatype Packet = Packet(id: nat, number: nat, odd: bool, payload: seq<Byte>)

  datatype Config = Config(scan: D.ScanType, packetsPerField: nat)

  // second: the next finished field completes an interleaved frame
  datatype State = State(
    id: nat,
    done: nat,
    second: bool,
    flag: Flag,
    buffer: seq<Byte>,
    dropped: nat,
    incomplete: nat)

  datatype Env = Env(accept: bool, buffer: seq<Byte>, flag: Flag)

  datatype Event = Nothing | Queued(flag: Flag, buffer: seq<Byte>)

  datatype Outcome = Outcome(st: State, event: Event)

  function BufferSize(cfg: Config): nat
  {
    (if cfg.scan.INTERLEAVED? then 2 else 1) * cfg.packetsPerField * G.PAYLOAD_SIZE
  }

  // The frame buffers hold exactly the packets of a field, or of two (module DeviceParameters);
  // packets have been checked to belong to the field.
  predicate Fits(cfg: Config, buffer: seq<Byte>, p: Packet)
  {
    |buffer| == BufferSize(cfg) && p.number < cfg.packetsPerField && |p.payload| == G.PAYLOAD_SIZE
  }

  // ------------------------------------------------------------------------------------
  // Copies

  function Overwrite(buffer: seq<Byte>, at: nat, bytes: seq<Byte>): (r: seq<Byte>)
    requires at + |bytes| <= |buffer|
    ensures |r| == |buffer|
    ensures forall o {:trigger r[o]} :: 0 <= o < |r| ==>
      r[o] == if at <= o < at + |bytes| then bytes[o - at] else buffer[o]
  {
    buffer[..at] + bytes + buffer[at + |bytes|..]
  }

  // packetToInterleavedFrame writes the halves at these offsets.
  lemma HalvesFit(number: nat, half: nat, odd: bool, packetsPerField: nat)
    requires number < packetsPerField && half < 2 && packetsPerField % 3 == 0
    ensures G.PartOffset(G.PartIndex(number, half), odd) + G.HALF_PAYLOAD <= 2 * packetsPerField * G.PAYLOAD_SIZE
  {
    var part := G.PartIndex(number, half);
    assert part / 3 * 2 + 1 < packetsPerField * 4 / 3;
  }

  function ToProgressive(buffer: seq<Byte>, p: Packet): (r: seq<Byte>)
    requires G.ProgressiveOffset(p.number, 0) + |p.payload| <= |buffer|
    ensures |r| == |buffer|
  {
    Overwrite(buffer, G.ProgressiveOffset(p.number, 0), p.payload)
  }

  function ToInterleaved(buffer: seq<Byte>, p: Packet): (r: seq<Byte>)
    requires |p.payload| == G.PAYLOAD_SIZE
    requires forall half: nat :: half < 2 ==>
      G.PartOffset(G.PartIndex(p.number, half), p.odd) + G.HALF_PAYLOAD <= |buffer|
    ensures |r| == |buffer|
  {
    var first := Overwrite(buffer, G.PartOffset(G.PartIndex(p.number, 0), p.odd), p.payload[..G.HALF_PAYLOAD]);
    Overwrite(first, G.PartOffset(G.PartIndex(p.number, 1), p.odd), p.payload[G.HALF_PAYLOAD..])
  }

  predicate Whole(cfg: Config) { cfg.scan.INTERLEAVED? ==> cfg.packetsPerField % 3 == 0 }

  function Copied(cfg: Config, buffer: seq<Byte>, p: Packet): (r: seq<Byte>)
    requires Whole(cfg) && Fits(cfg, buffer, p)
    ensures |r| == |buffer|
  {
    match cfg.scan
    case PROGRESSIVE => ToProgressive(buffer, p)
    case DISCARD => if p.odd then ToProgressive(buffer, p) else buffer
    case INTERLEAVED =>
      HalvesFit(p.number, 0, p.odd, cfg.packetsPerField);
      HalvesFit(p.number, 1, p.odd, cfg.packetsPerField);
      ToInterleaved(buffer, p)
  }

  // ------------------------------------------------------------------------------------
  // processPacket

  function Inc32(x: nat): nat { (x + 1) % WORD32 }

  predicate Opens(st: State, p: Packet) { p.number == 0 || p.id != st.id }

  // The field of a new packet is opened; a frame still in progress is dropped.
  function Opened(st: State, p: Packet): State
  {
    if Opens(st, p) then
      st.(dropped := if st.flag.InProgress? then Inc32(st.dropped) else st.dropped,
          id := p.id, done := 0, flag := InProgress)
    else st
  }

  // One more packet of the field that is then current; _packetsDone has 16 bits.
  function Accepted(st: State, p: Packet): State
  {
    var o := Opened(st, p);
    o.(done := (o.done + 1) % WORD16)
  }

  // The verdict on a field when its last packet has come.
  function Judged(cfg: Config, st: State): State
  {
    if st.done != cfg.packetsPerField then st.(flag := Partial, incomplete := Inc32(st.incomplete))
    else st.(flag := Complete)
  }

  function Enqueue(st: State, env: Env): Outcome
  {
    if env.accept then
      Outcome(st.(buffer := env.buffer, flag := env.flag), Queued(st.flag, st.buffer))
    else
      Outcome(st.(dropped := Inc32(st.dropped), flag := Start), Nothing)
  }

  // checkFinishedFrame
  function Finished(cfg: Config, st: State, odd: bool, env: Env): Outcome
  {
    var judged := Judged(cfg, st);
    match cfg.scan
    case PROGRESSIVE => Enqueue(judged, env)
    case DISCARD => if odd then Enqueue(judged, env) else Outcome(judged, Nothing)
    case INTERLEAVED =>
      if judged.second then
        var o := Enqueue(judged, env);
        Outcome(o.st.(second := false), o.event)
      else
        Outcome(if odd then judged.(second := true) else judged, Nothing)
  }

  function Step(cfg: Config, st: State, p: Packet, env: Env): Outcome
    requires Whole(cfg) && |st.buffer| == BufferSize(cfg) && |p.payload| == G.PAYLOAD_SIZE
  {
    if p.number >= cfg.packetsPerField then Outcome(st, Nothing)
    else
      var c := Accepted(st, p).(buffer := Copied(cfg, st.buffer, p));
      if p.number == cfg.packetsPerField - 1 then Finished(cfg, c, p.odd, env) else Outcome(c, Nothing)
  }

  predicate GoodPacket(p: Packet) { |p.payload| == G.PAYLOAD_SIZE }

  predicate GoodEnv(cfg: Config, env: Env) { |env.buffer| == BufferSize(cfg) }

  lemma StepKeepsSize(cfg: Config, st: State, p: Packet, env: Env)
    requires Whole(cfg) && |st.buffer| == BufferSize(cfg) && GoodPacket(p) && GoodEnv(cfg, env)
    ensures |Step(cfg, st, p, env).st.buffer| == BufferSize(cfg)
  {}

  // ------------------------------------------------------------------------------------
  // What one packet writes

  // The half of a part that covers an offset.
  lemma PartCovers(part: nat, odd: bool, o: nat)
    ensures G.PartOffset(part, odd) <= o < G.PartOffset(part, odd) + G.HALF_PAYLOAD <==>
      var pl := G.PlaceAt(o); pl.odd == odd && G.PartIndex(pl.packet, pl.byte / G.HALF_PAYLOAD) == part
    ensures var pl := G.PlaceAt(o);
      pl.odd == odd && G.PartIndex(pl.packet, pl.byte / G.HALF_PAYLOAD) == part ==>
        o - G.PartOffset(part, odd) == pl.byte % G.HALF_PAYLOAD
  {
    hide G.PlaceAt, G.LineIndex;
    G.OffsetOfPlace(o);
    if G.PartOffset(part, odd) <= o < G.PartOffset(part, odd) + G.HALF_PAYLOAD {
      var j := o - G.PartOffset(part, odd);
      var pl := G.Place(odd, part / 2, part % 2 * G.HALF_PAYLOAD + j);
      DivModUnique(pl.byte, G.HALF_PAYLOAD, part % 2, j);
      G.PlaceOfOffset(pl);
    }
  }

  lemma InterleavedWrites(buffer: seq<Byte>, p: Packet, o: nat)
    requires GoodPacket(p) && o < |buffer|
    requires forall half: nat :: half < 2 ==>
      G.PartOffset(G.PartIndex(p.number, half), p.odd) + G.HALF_PAYLOAD <= |buffer|
    ensures var pl := G.PlaceAt(o);
      pl.byte < G.PAYLOAD_SIZE &&
      ToInterleaved(buffer, p)[o] == if pl.odd == p.odd && pl.packet == p.number then p.payload[pl.byte] else buffer[o]
  {
    hide G.PlaceAt, G.PartOffset, G.InterleavedOffset, Overwrite;
    G.OffsetOfPlace(o);
    PartCovers(G.PartIndex(p.number, 0), p.odd, o);
    PartCovers(G.PartIndex(p.number, 1), p.odd, o);
    var pl := G.PlaceAt(o);
    assert pl.byte == G.HALF_PAYLOAD * (pl.byte / G.HALF_PAYLOAD) + pl.byte % G.HALF_PAYLOAD;
  }

  // ------------------------------------------------------------------------------------
  // Runs

  datatype Trace = Trace(st: State, events: seq<Event>)

  ghost predicate GoodRun(cfg: Config, st: State, ps: seq<Packet>, envs: seq<Env>)
  {
    && Whole(cfg) && |st.buffer| == BufferSize(cfg) && |envs| == |ps|
    && (forall i :: 0 <= i < |ps| ==> GoodPacket(ps[i]))
    && (forall i :: 0 <= i < |ps| ==> GoodEnv(cfg, envs[i]))
  }

  ghost function Run(cfg: Config, st: State, ps: seq<Packet>, envs: seq<Env>): (t: Trace)
    requires GoodRun(cfg, st, ps, envs)
    ensures |t.st.buffer| == BufferSize(cfg) && |t.events| == |ps|
  {
    if ps == [] then Trace(st, [])
    else
      var n := |ps| - 1;
      var t := Run(cfg, st, ps[..n], envs[..n]);
      var o := Step(cfg, t.st, ps[n], envs[n]);
      StepKeepsSize(cfg, t.st, ps[n], envs[n]);
      Trace(o.st, t.events + [o.event])
  }

  // A frame fetched while the stream is active carries FRAME_START (class UsbTvDriver).
  ghost predicate FetchedWhileStreaming(t: Trace, envs: seq<Env>)
  {
    |t.events| == |envs| && forall i :: 0 <= i < |envs| ==> t.events[i].Queued? ==> envs[i].flag == Start
  }

  lemma {:induction false} RunSnoc(cfg: Config, st: State, ps: seq<Packet>, envs: seq<Env>, p: Packet, env: Env)
    requires GoodRun(cfg, st, ps, envs) && GoodPacket(p) && GoodEnv(cfg, env)
    ensures GoodRun(cfg, st, ps + [p], envs + [env])
    ensures var t := Run(cfg, st, ps, envs); var o := Step(cfg, t.st, p, env);
      Run(cfg, st, ps + [p], envs + [env]) == Trace(o.st, t.events + [o.event])
  {
    hide Step;
    assert (ps + [p])[..|ps|] == ps && (envs + [env])[..|ps|] == envs;
  }

  lemma {:induction false} RunNothing(cfg: Config, st: State)
    requires GoodRun(cfg, st, [], [])
    ensures Run(cfg, st, [], []) == Trace(st, [])
  {}

  lemma {:induction false} RunConcat(cfg: Config, st: State, ps: seq<Packet>, envs: seq<Env>, qs: seq<Packet>,
                                     fs: seq<Env>)
    requires GoodRun(cfg, st, ps, envs) && GoodRun(cfg, Run(cfg, st, ps, envs).st, qs, fs)
    ensures GoodRun(cfg, st, ps + qs, envs + fs)
    ensures var t := Run(cfg, st, ps, envs); var u := Run(cfg, t.st, qs, fs);
      Run(cfg, st, ps + qs, envs + fs) == Trace(u.st, t.events + u.events)
    decreases |qs|
  {
    hide Step, GoodEnv, Run;
    var t := Run(cfg, st, ps, envs);
    if qs == [] {
      RunNothing(cfg, t.st);
      assert ps + qs == ps && envs + fs == envs && t.events + [] == t.events;
    } else {
      var m := |qs| - 1;
      RunConcat(cfg, st, ps, envs, qs[..m], fs[..m]);
      assert qs == qs[..m] + [qs[m]] && fs == fs[..m] + [fs[m]];
      RunSnoc(cfg, t.st, qs[..m], fs[..m], qs[m], fs[m]);
      assert ps + qs == (ps + qs[..m]) + [qs[m]] && envs + fs == (envs + fs[..m]) + [fs[m]];
      RunSnoc(cfg, st, ps + qs[..m], envs + fs[..m], qs[m], fs[m]);
      var u := Run(cfg, t.st, qs[..m], fs[..m]);
      var o := Step(cfg, u.st, qs[m], fs[m]);
      assert (t.events + u.events) + [o.event] == t.events + (u.events + [o.event]);
    }
  }

  // The i-th event of a run is that of the i-th packet, in the state the packets before it lead to.
  lemma {:induction false} RunAt(cfg: Config, st: State, ps: seq<Packet>, envs: seq<Env>, i: nat)
    requires GoodRun(cfg, st, ps, envs) && i < |ps|
    ensures GoodRun(cfg, st, ps[..i], envs[..i])
    ensures Run(cfg, st, ps, envs).events[i] == Step(cfg, Run(cfg, st, ps[..i], envs[..i]).st, ps[i], envs[i]).event
    decreases |ps|
  {
    hide Step, GoodEnv;
    var n := |ps| - 1;
    if i < n {
      RunAt(cfg, st, ps[..n], envs[..n], i);
      assert ps[..n][..i] == ps[..i] && envs[..n][..i] == envs[..i];
    }
  }
}
