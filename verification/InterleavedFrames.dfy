/**
 What the flag of a frame queued in INTERLEAVED mode says about its two fields, and when the
 frame is the weave of them: for any packet stream, with the history that the statements need.
 */
module InterleavedFrames {
  import opened FieldHistory
  import opened InterleavedFields
  import opened Reassembly
  import G = Geometry

  // The current field; the field that set _secondFrame last, if one has in this run, and the
  // flag it was given, which the frame does not keep; and whether no odd packet came since.
  datatype History = History(st: State, field: Field, first: Field, verdict: Flag, clean: bool)

  // The packet ends a field that sets _secondFrame.
  predicate SetsSecond(cfg: Config, st: State, p: Packet) { IsLast(cfg, p) && p.odd && !st.second }

  function Next(cfg: Config, h: History, p: Packet, env: Env): History
    requires Whole(cfg) && |h.st.buffer| == BufferSize(cfg) && GoodPacket(p)
  {
    var st := Step(cfg, h.st, p, env).st;
    var field := Extend(cfg, h.st, h.field, p);
    if SetsSecond(cfg, h.st, p) then History(st, field, field, Verdict(cfg, h.st, p), true)
    else History(st, field, h.first, h.verdict, h.clean && !(InField(cfg, p) && p.odd))
  }

  function Start(st: State): History { History(st, Field([], st.done), Field([], 0), NoFlag, false) }

  // The history after the first i packets of a run.
  ghost function At(cfg: Config, st: State, ps: seq<Packet>, envs: seq<Env>, i: nat): (h: History)
    requires GoodRun(cfg, st, ps, envs) && i <= |ps|
    ensures |h.st.buffer| == BufferSize(cfg)
    ensures i < |ps| ==> GoodPacket(ps[i]) && GoodEnv(cfg, envs[i])
  {
    if i == 0 then Start(st)
    else
      var h := At(cfg, st, ps, envs, i - 1);
      StepKeepsSize(cfg, h.st, ps[i - 1], envs[i - 1]);
      Next(cfg, h, ps[i - 1], envs[i - 1])
  }

  lemma {:induction false} AtIsRun(cfg: Config, st: State, ps: seq<Packet>, envs: seq<Env>, i: nat)
    requires GoodRun(cfg, st, ps, envs) && i <= |ps|
    ensures GoodRun(cfg, st, ps[..i], envs[..i]) && At(cfg, st, ps, envs, i).st == Run(cfg, st, ps[..i], envs[..i]).st
  {
    hide Step, GoodEnv;
    if i > 0 {
      AtIsRun(cfg, st, ps, envs, i - 1);
      assert ps[..i][..i - 1] == ps[..i - 1] && envs[..i][..i - 1] == envs[..i - 1];
    }
  }

  // The event of the i-th packet of a run.
  lemma {:induction false} EventAt(cfg: Config, st: State, ps: seq<Packet>, envs: seq<Env>, i: nat)
    requires GoodRun(cfg, st, ps, envs) && i < |ps|
    ensures Run(cfg, st, ps, envs).events[i] == Step(cfg, At(cfg, st, ps, envs, i).st, ps[i], envs[i]).event
  {
    AtIsRun(cfg, st, ps, envs, i);
    RunAt(cfg, st, ps, envs, i);
  }

  // ------------------------------------------------------------------------------------
  // The two verdicts, for packets in any order

  // A field that set _secondFrame in this run.
  ghost predicate Known(h: History) { h.first.seen != [] }

  ghost predicate FirstOk(cfg: Config, h: History)
  {
    Known(h) ==>
      && Holds(cfg, h.first.seen[0].id, h.first)
      && (h.verdict == Complete <==> Total(h.first) % WORD16 == cfg.packetsPerField)
  }

  ghost predicate VerdictsOk(cfg: Config, h: History) { Tracks(cfg, h.st, h.field) && FirstOk(cfg, h) }

  lemma SameId(cfg: Config, id: nat, f: Field)
    requires Holds(cfg, id, f) && f.seen != []
    ensures f.seen[0].id == id && f.seen[|f.seen| - 1].id == id
  {
    assert Belongs(cfg, id, f.base, f.seen[0]) && Belongs(cfg, id, f.base, f.seen[|f.seen| - 1]);
  }

  lemma StepKeepsVerdicts(cfg: Config, h: History, p: Packet, env: Env)
    requires cfg.scan.INTERLEAVED? && Whole(cfg) && |h.st.buffer| == BufferSize(cfg) && GoodPacket(p)
    requires VerdictsOk(cfg, h)
    ensures VerdictsOk(cfg, Next(cfg, h, p, env))
  {
    hide Step, Verdict, Opens, Holds;
    StepTracks(cfg, h.st, h.field, p, env);
    var h' := Next(cfg, h, p, env);
    if SetsSecond(cfg, h.st, p) {
      SameId(cfg, h'.st.id, h'.field);
    }
  }

  lemma {:induction false} AlwaysVerdicts(cfg: Config, st: State, ps: seq<Packet>, envs: seq<Env>, i: nat)
    requires cfg.scan.INTERLEAVED? && GoodRun(cfg, st, ps, envs) && i <= |ps| && st.done < WORD16
    ensures VerdictsOk(cfg, At(cfg, st, ps, envs, i))
  {
    hide Step, VerdictsOk, Next;
    if i == 0 {
      StartsOk(cfg, st);
    } else {
      AlwaysVerdicts(cfg, st, ps, envs, i - 1);
      StepKeepsVerdicts(cfg, At(cfg, st, ps, envs, i - 1), ps[i - 1], envs[i - 1]);
    }
  }

  lemma StartsOk(cfg: Config, st: State)
    requires st.done < WORD16
    ensures VerdictsOk(cfg, Start(st))
  {
    TracksNothing(cfg, st);
  }

  // The flag a frame is queued with is right about its second field, and the verdict that was on
  // the first field is right about that one, each exactly if the count does not mislead.
  lemma VerdictsAreRight(cfg: Config, st: State, ps: seq<Packet>, envs: seq<Env>, i: nat)
    requires cfg.scan.INTERLEAVED? && GoodRun(cfg, st, ps, envs) && i < |ps|
    requires st.done < WORD16 && cfg.packetsPerField < WORD16 && Run(cfg, st, ps, envs).events[i].Queued?
    ensures var n, e := cfg.packetsPerField, Run(cfg, st, ps, envs).events[i];
      var first, verdict, field := At(cfg, st, ps, envs, i).first, At(cfg, st, ps, envs, i).verdict,
        At(cfg, st, ps, envs, i + 1).field;
      && ((e.flag == Complete <==> AllPresent(field.seen, n)) <==> !CountMisleads(field, n))
      && (first.seen != [] ==> ((verdict == Complete <==> AllPresent(first.seen, n)) <==> !CountMisleads(first, n)))
  {
    hide Run, Step, CountMisleads, AllPresent, Verdict, Opens, Holds;
    var h := At(cfg, st, ps, envs, i);
    EventAt(cfg, st, ps, envs, i);
    AlwaysVerdicts(cfg, st, ps, envs, i);
    QueuedWithVerdict(cfg, h.st, ps[i], envs[i]);
    StepTracks(cfg, h.st, h.field, ps[i], envs[i]);
    CountIsRight(cfg, Step(cfg, h.st, ps[i], envs[i]).st.id, Extend(cfg, h.st, h.field, ps[i]));
    if Known(h) {
      CountIsRight(cfg, h.first.seen[0].id, h.first);
    }
  }

  // ------------------------------------------------------------------------------------
  // Fields whose packets come in order

  ghost predicate RunsInOrder(cfg: Config, st: State, ps: seq<Packet>, envs: seq<Env>, i: nat)
    requires GoodRun(cfg, st, ps, envs) && i <= |ps|
  {
    forall k :: 0 <= k < i ==> InOrder(cfg, At(cfg, st, ps, envs, k).st, At(cfg, st, ps, envs, k).field, ps[k])
  }

  ghost predicate OrderOk(h: History) { Ascending(h.field.seen) && Ascending(h.first.seen) }

  lemma {:induction false} AlwaysInOrder(cfg: Config, st: State, ps: seq<Packet>, envs: seq<Env>, i: nat)
    requires GoodRun(cfg, st, ps, envs) && i <= |ps| && RunsInOrder(cfg, st, ps, envs, i)
    ensures OrderOk(At(cfg, st, ps, envs, i))
  {
    hide Step, Opens, Ascending, InOrder;
    if i == 0 {
      AscendingNothing();
    } else {
      var h := At(cfg, st, ps, envs, i - 1);
      AlwaysInOrder(cfg, st, ps, envs, i - 1);
      assert InOrder(cfg, h.st, h.field, ps[i - 1]);
      ExtendsInOrder(cfg, h.st, h.field, ps[i - 1]);
    }
  }

  lemma AscendingNothing()
    ensures Ascending([])
  {}

  // Once a field has set _secondFrame, in this run, no stale count is left.
  ghost predicate CountIsFresh(cfg: Config, h: History)
  {
    h.st.second && Known(h) ==> h.field.base == 0 || Ended(cfg, h.field)
  }

  lemma FreshField(cfg: Config, h: History, p: Packet)
    requires CountIsFresh(cfg, h) && h.st.second && Known(h) && InField(cfg, p) && InOrder(cfg, h.st, h.field, p)
    ensures Extend(cfg, h.st, h.field, p).base == 0
  {}

  lemma StepKeepsFresh(cfg: Config, h: History, p: Packet, env: Env)
    requires cfg.scan.INTERLEAVED? && Whole(cfg) && |h.st.buffer| == BufferSize(cfg) && GoodPacket(p)
    requires CountIsFresh(cfg, h) && InOrder(cfg, h.st, h.field, p)
    ensures CountIsFresh(cfg, Next(cfg, h, p, env))
  {
    hide Step, Opens, Verdict;
    StepPairs(cfg, h.st, p, env);
  }

  lemma {:induction false} AlwaysFresh(cfg: Config, st: State, ps: seq<Packet>, envs: seq<Env>, i: nat)
    requires cfg.scan.INTERLEAVED? && GoodRun(cfg, st, ps, envs) && i <= |ps| && RunsInOrder(cfg, st, ps, envs, i)
    ensures CountIsFresh(cfg, At(cfg, st, ps, envs, i))
  {
    hide Step, Next, InOrder;
    if i > 0 {
      var h := At(cfg, st, ps, envs, i - 1);
      AlwaysFresh(cfg, st, ps, envs, i - 1);
      assert InOrder(cfg, h.st, h.field, ps[i - 1]);
      StepKeepsFresh(cfg, h, ps[i - 1], envs[i - 1]);
    }
  }

  // The two verdicts on a pair whose fields came in order.
  lemma VerdictsInOrder(cfg: Config, h: History, p: Packet, env: Env)
    requires cfg.scan.INTERLEAVED? && Whole(cfg) && |h.st.buffer| == BufferSize(cfg) && GoodPacket(p)
    requires VerdictsOk(cfg, h) && OrderOk(h) && CountIsFresh(cfg, h) && InOrder(cfg, h.st, h.field, p)
    requires Step(cfg, h.st, p, env).event.Queued? && Known(h) && cfg.packetsPerField < WORD16
    ensures var n, field := cfg.packetsPerField, Extend(cfg, h.st, h.field, p);
      && (Step(cfg, h.st, p, env).event.flag == Complete <==> AllPresent(field.seen, n))
      && (h.verdict == Complete <==> AllPresent(h.first.seen, n) || StaleCompletes(h.first, n))
      && !(AllPresent(h.first.seen, n) && StaleCompletes(h.first, n))
  {
    hide Step, AllPresent, Verdict, Opens, Holds, Missing, Ascending;
    StepPairs(cfg, h.st, p, env);
    QueuedWithVerdict(cfg, h.st, p, env);
    StepTracks(cfg, h.st, h.field, p, env);
    ExtendsInOrder(cfg, h.st, h.field, p);
    FreshField(cfg, h, p);
    InOrderVerdict(cfg, Step(cfg, h.st, p, env).st.id, Extend(cfg, h.st, h.field, p));
    InOrderVerdict(cfg, h.first.seen[0].id, h.first);
  }

  // With packet numbers increasing within a field: all packets of both fields of a queued frame
  // came if and only if its flag is complete and so was the verdict on the first field; but for
  // a first field that continues the last session's, with a count that makes up for its losses.
  lemma {:induction false} CompleteIffBothPresent(cfg: Config, st: State, ps: seq<Packet>, envs: seq<Env>, i: nat)
    requires cfg.scan.INTERLEAVED? && GoodRun(cfg, st, ps, envs) && i < |ps| && RunsInOrder(cfg, st, ps, envs, i + 1)
    requires st.done < WORD16 && cfg.packetsPerField < WORD16 && Run(cfg, st, ps, envs).events[i].Queued?
    requires Known(At(cfg, st, ps, envs, i))
    ensures var n, e, h := cfg.packetsPerField, Run(cfg, st, ps, envs).events[i], At(cfg, st, ps, envs, i);
      var first, second := AllPresent(h.first.seen, n), AllPresent(At(cfg, st, ps, envs, i + 1).field.seen, n);
      && (e.flag == Complete <==> second)
      && (h.verdict == Complete <==> first || StaleCompletes(h.first, n))
      && ((first && second <==> h.verdict == Complete && e.flag == Complete)
          <==> !(StaleCompletes(h.first, n) && second))
  {
    hide Step, AllPresent, Verdict, Extend, InOrder, StaleCompletes, Run, VerdictsOk, OrderOk, CountIsFresh, Known;
    var h := At(cfg, st, ps, envs, i);
    EventAt(cfg, st, ps, envs, i);
    AlwaysVerdicts(cfg, st, ps, envs, i);
    AlwaysInOrder(cfg, st, ps, envs, i);
    AlwaysFresh(cfg, st, ps, envs, i);
    assert InOrder(cfg, h.st, h.field, ps[i]);
    VerdictsInOrder(cfg, h, ps[i], envs[i]);
  }

  // A stale count is that of the last session, on a field that continues its last one.
  ghost predicate StaleFrom(st: State, h: History)
  {
    && (h.field.base != 0 ==> h.field.base == st.done && h.st.id == st.id)
    && (h.first.base != 0 ==> h.first.base == st.done)
  }

  lemma {:induction false} StaleIsLastSession(cfg: Config, st: State, ps: seq<Packet>, envs: seq<Env>, i: nat)
    requires GoodRun(cfg, st, ps, envs) && i <= |ps|
    ensures StaleFrom(st, At(cfg, st, ps, envs, i))
  {
    hide Copied, Verdict, Finished;
    if i > 0 {
      StaleIsLastSession(cfg, st, ps, envs, i - 1);
      StepKeepsId(cfg, At(cfg, st, ps, envs, i - 1).st, ps[i - 1], envs[i - 1]);
    }
  }

  lemma StepKeepsId(cfg: Config, st: State, p: Packet, env: Env)
    requires Whole(cfg) && |st.buffer| == BufferSize(cfg) && GoodPacket(p)
    ensures Step(cfg, st, p, env).st.id == if Opening(cfg, st, p) then p.id else st.id
  {
    hide Copied;
  }

  // ------------------------------------------------------------------------------------
  // The weave

  // The bytes of p are where they belong.
  ghost predicate InPlace(buffer: seq<Byte>, p: Packet)
    requires GoodPacket(p)
  {
    forall o :: 0 <= o < |buffer| ==> ByteInPlace(buffer[o], G.PlaceAt(o), p)
  }

  predicate ByteInPlace(b: Byte, pl: G.Place, p: Packet)
    requires GoodPacket(p)
  {
    pl.odd == p.odd && pl.packet == p.number && pl.byte < G.PAYLOAD_SIZE ==> b == p.payload[pl.byte]
  }

  ghost predicate AllGood(seen: seq<Packet>) { forall j :: 0 <= j < |seen| ==> GoodPacket(seen[j]) }

  ghost predicate AllInPlace(buffer: seq<Byte>, seen: seq<Packet>)
  {
    forall j :: 0 <= j < |seen| ==> GoodPacket(seen[j]) && InPlace(buffer, seen[j])
  }

  // A packet is put in its place, and leaves all others where they are.
  lemma CopyPlaces(cfg: Config, b: seq<Byte>, p: Packet, q: Packet)
    requires cfg.scan.INTERLEAVED? && Whole(cfg) && Fits(cfg, b, p) && GoodPacket(q)
    requires p == q || (InPlace(b, q) && (p.odd != q.odd || p.number != q.number))
    ensures InPlace(Copied(cfg, b, p), q)
  {
    HalvesFit(p.number, 0, p.odd, cfg.packetsPerField);
    HalvesFit(p.number, 1, p.odd, cfg.packetsPerField);
    var c := Copied(cfg, b, p);
    forall o | 0 <= o < |c| ensures ByteInPlace(c[o], G.PlaceAt(o), q) {
      InterleavedWrites(b, p, o);
      assert p != q ==> ByteInPlace(b[o], G.PlaceAt(o), q);
    }
  }

  // All packets of a field have one parity.
  ghost predicate OneParity(seen: seq<Packet>, odd: bool) { forall j :: 0 <= j < |seen| ==> seen[j].odd == odd }

  predicate KeepsParity(cfg: Config, st: State, f: Field, p: Packet)
  {
    InField(cfg, p) && !Opens(st, p) && f.seen != [] ==> p.odd == f.seen[|f.seen| - 1].odd
  }

  // The current field is in place until it has ended; the first field of the pair, while the
  // second is awaited and no odd packet has come.
  ghost predicate PlacesOk(cfg: Config, h: History)
  {
    && Tracks(cfg, h.st, h.field) && OrderOk(h)
    && (h.field.seen != [] ==> OneParity(h.field.seen, h.field.seen[|h.field.seen| - 1].odd))
    && OneParity(h.first.seen, true)
    && (Ended(cfg, h.field) || AllInPlace(h.st.buffer, h.field.seen))
    && (h.st.second && Known(h) && h.clean ==> AllInPlace(h.st.buffer, h.first.seen))
  }

  lemma FieldInPlace(cfg: Config, h: History, p: Packet)
    requires cfg.scan.INTERLEAVED? && Whole(cfg) && |h.st.buffer| == BufferSize(cfg) && GoodPacket(p)
    requires InField(cfg, p) && PlacesOk(cfg, h) && InOrder(cfg, h.st, h.field, p)
    ensures AllInPlace(Copied(cfg, h.st.buffer, p), Extend(cfg, h.st, h.field, p).seen)
  {
    hide Copied, InPlace, OneParity;
    var seen := Extend(cfg, h.st, h.field, p).seen;
    forall j | 0 <= j < |seen| ensures GoodPacket(seen[j]) && InPlace(Copied(cfg, h.st.buffer, p), seen[j]) {
      if j < |seen| - 1 {
        assert seen[j].number < p.number;
      }
      CopyPlaces(cfg, h.st.buffer, p, seen[j]);
    }
  }

  lemma FirstInPlace(cfg: Config, h: History, p: Packet)
    requires cfg.scan.INTERLEAVED? && Whole(cfg) && |h.st.buffer| == BufferSize(cfg) && GoodPacket(p)
    requires InField(cfg, p) && !p.odd && OneParity(h.first.seen, true) && AllInPlace(h.st.buffer, h.first.seen)
    ensures AllInPlace(Copied(cfg, h.st.buffer, p), h.first.seen)
  {
    hide Copied, InPlace;
    forall j | 0 <= j < |h.first.seen| ensures InPlace(Copied(cfg, h.st.buffer, p), h.first.seen[j]) {
      CopyPlaces(cfg, h.st.buffer, p, h.first.seen[j]);
    }
  }

  lemma ExtendsParity(cfg: Config, st: State, f: Field, p: Packet)
    requires f.seen != [] ==> OneParity(f.seen, f.seen[|f.seen| - 1].odd)
    requires InField(cfg, p) && KeepsParity(cfg, st, f, p)
    ensures OneParity(Extend(cfg, st, f, p).seen, p.odd)
  {}

  // Where the buffer of the next state comes from.
  lemma StepBuffer(cfg: Config, st: State, p: Packet, env: Env)
    requires cfg.scan.INTERLEAVED? && Whole(cfg) && |st.buffer| == BufferSize(cfg) && GoodPacket(p)
    ensures !InField(cfg, p) ==> Step(cfg, st, p, env).st.buffer == st.buffer
    ensures InField(cfg, p) && !(IsLast(cfg, p) && st.second) ==>
      Step(cfg, st, p, env).st.buffer == Copied(cfg, st.buffer, p)
  {
    hide Copied;
  }

  lemma StepKeepsPlaces(cfg: Config, h: History, p: Packet, env: Env)
    requires cfg.scan.INTERLEAVED? && Whole(cfg) && |h.st.buffer| == BufferSize(cfg) && GoodPacket(p)
    requires PlacesOk(cfg, h) && InOrder(cfg, h.st, h.field, p) && KeepsParity(cfg, h.st, h.field, p)
    ensures PlacesOk(cfg, Next(cfg, h, p, env))
  {
    hide Step, Copied, Verdict, Opens, AllInPlace, Ascending, InOrder, KeepsParity, Holds, OneParity;
    StepTracks(cfg, h.st, h.field, p, env);
    StepPairs(cfg, h.st, p, env);
    StepBuffer(cfg, h.st, p, env);
    ExtendsInOrder(cfg, h.st, h.field, p);
    if InField(cfg, p) {
      FieldInPlace(cfg, h, p);
      ExtendsParity(cfg, h.st, h.field, p);
      if h.st.second && Known(h) && h.clean && !p.odd {
        FirstInPlace(cfg, h, p);
      }
    }
  }

  ghost predicate RunsWithParity(cfg: Config, st: State, ps: seq<Packet>, envs: seq<Env>, i: nat)
    requires GoodRun(cfg, st, ps, envs) && i <= |ps|
  {
    forall k :: 0 <= k < i ==> KeepsParity(cfg, At(cfg, st, ps, envs, k).st, At(cfg, st, ps, envs, k).field, ps[k])
  }

  lemma {:induction false} AlwaysPlaces(cfg: Config, st: State, ps: seq<Packet>, envs: seq<Env>, i: nat)
    requires cfg.scan.INTERLEAVED? && GoodRun(cfg, st, ps, envs) && i <= |ps| && st.done < WORD16
    requires RunsInOrder(cfg, st, ps, envs, i) && RunsWithParity(cfg, st, ps, envs, i)
    ensures PlacesOk(cfg, At(cfg, st, ps, envs, i))
  {
    hide Step, Next, InOrder, KeepsParity, PlacesOk;
    if i == 0 {
      StartsInPlace(cfg, st);
    } else {
      var h := At(cfg, st, ps, envs, i - 1);
      AlwaysPlaces(cfg, st, ps, envs, i - 1);
      assert InOrder(cfg, h.st, h.field, ps[i - 1]) && KeepsParity(cfg, h.st, h.field, ps[i - 1]);
      StepKeepsPlaces(cfg, h, ps[i - 1], envs[i - 1]);
    }
  }

  lemma StartsInPlace(cfg: Config, st: State)
    requires st.done < WORD16
    ensures PlacesOk(cfg, Start(st))
  {
    TracksNothing(cfg, st);
  }

  function PayloadsOf(seen: seq<Packet>): (r: seq<seq<Byte>>)
    ensures |r| == |seen| && forall k :: 0 <= k < |r| ==> r[k] == seen[k].payload
  {
    seq(|seen|, k requires 0 <= k < |seen| => seen[k].payload)
  }

  lemma PlacedIsWoven(cfg: Config, b: seq<Byte>, odds: seq<Packet>, evens: seq<Packet>, id: nat, jd: nat)
    requires cfg.scan.INTERLEAVED? && Whole(cfg) && |b| == BufferSize(cfg)
    requires AllGood(odds) && AllGood(evens)
    requires IsField(odds, id, cfg.packetsPerField) && OneParity(odds, true) && AllInPlace(b, odds)
    requires IsField(evens, jd, cfg.packetsPerField) && OneParity(evens, false) && AllInPlace(b, evens)
    ensures Woven(b, PayloadsOf(odds), PayloadsOf(evens))
  {
    forall o | 0 <= o < |b|
      ensures var pl := G.PlaceAt(o);
        && pl.byte < G.PAYLOAD_SIZE && pl.packet < |odds| == |evens|
        && b[o] == (if pl.odd then PayloadsOf(odds) else PayloadsOf(evens))[pl.packet][pl.byte]
    {
      G.OffsetOfPlace(o);
      PlaceInField(cfg.packetsPerField, o);
      var pl := G.PlaceAt(o);
      var p := (if pl.odd then odds else evens)[pl.packet];
      assert InPlace(b, p);
      assert ByteInPlace(b[o], pl, p);
    }
  }

  lemma PlacedAreGood(buffer: seq<Byte>, seen: seq<Packet>)
    requires AllInPlace(buffer, seen)
    ensures AllGood(seen)
  {}

  lemma StepWeaves(cfg: Config, h: History, p: Packet, env: Env)
    requires cfg.scan.INTERLEAVED? && Whole(cfg) && |h.st.buffer| == BufferSize(cfg) && GoodPacket(p)
    requires VerdictsOk(cfg, h) && PlacesOk(cfg, h)
    requires InOrder(cfg, h.st, h.field, p) && KeepsParity(cfg, h.st, h.field, p)
    requires Step(cfg, h.st, p, env).event.Queued? && !p.odd && Known(h) && h.clean
    requires AllPresent(h.first.seen, cfg.packetsPerField)
    requires AllPresent(Extend(cfg, h.st, h.field, p).seen, cfg.packetsPerField)
    ensures var first, second := h.first.seen, Extend(cfg, h.st, h.field, p).seen;
      && AllGood(first) && AllGood(second)
      && Woven(Step(cfg, h.st, p, env).event.buffer, PayloadsOf(first), PayloadsOf(second))
  {
    hide Step, Copied, Verdict, Opens, AllInPlace, AllPresent, Ascending, InOrder, KeepsParity, Holds, OneParity;
    hide Woven, Ended;
    var second := Extend(cfg, h.st, h.field, p);
    StepPairs(cfg, h.st, p, env);
    QueuedWithVerdict(cfg, h.st, p, env);
    var b := Copied(cfg, h.st.buffer, p);
    StepTracks(cfg, h.st, h.field, p, env);
    ExtendsInOrder(cfg, h.st, h.field, p);
    ExtendsParity(cfg, h.st, h.field, p);
    FieldInPlace(cfg, h, p);
    FirstInPlace(cfg, h, p);
    PlacedAreGood(b, h.first.seen);
    PlacedAreGood(b, second.seen);
    FullIsField(cfg, Step(cfg, h.st, p, env).st.id, second);
    FullIsField(cfg, h.first.seen[0].id, h.first);
    PlacedIsWoven(cfg, b, h.first.seen, second.seen, h.first.seen[0].id, Step(cfg, h.st, p, env).st.id);
  }

  // A queued frame whose fields are an odd one and then an even one, with no odd packet in
  // between, is the weave of the two if all their packets came.
  lemma {:induction false} FrameIsWoven(cfg: Config, st: State, ps: seq<Packet>, envs: seq<Env>, i: nat)
    requires cfg.scan.INTERLEAVED? && GoodRun(cfg, st, ps, envs) && i < |ps| && st.done < WORD16
    requires RunsInOrder(cfg, st, ps, envs, i + 1) && RunsWithParity(cfg, st, ps, envs, i + 1)
    requires Run(cfg, st, ps, envs).events[i].Queued? && !ps[i].odd
    requires Known(At(cfg, st, ps, envs, i)) && At(cfg, st, ps, envs, i).clean
    requires AllPresent(At(cfg, st, ps, envs, i).first.seen, cfg.packetsPerField)
    requires AllPresent(At(cfg, st, ps, envs, i + 1).field.seen, cfg.packetsPerField)
    ensures var e, h := Run(cfg, st, ps, envs).events[i], At(cfg, st, ps, envs, i);
      var first, second := h.first.seen, At(cfg, st, ps, envs, i + 1).field.seen;
      && AllGood(first) && AllGood(second) && Woven(e.buffer, PayloadsOf(first), PayloadsOf(second))
  {
    hide Run, Step, Verdict, Extend, AllPresent, AllGood, PayloadsOf, Woven, InOrder, KeepsParity, VerdictsOk;
    hide PlacesOk, Known;
    var h := At(cfg, st, ps, envs, i);
    EventAt(cfg, st, ps, envs, i);
    AlwaysVerdicts(cfg, st, ps, envs, i);
    AlwaysPlaces(cfg, st, ps, envs, i);
    assert InOrder(cfg, h.st, h.field, ps[i]) && KeepsParity(cfg, h.st, h.field, ps[i]);
    StepWeaves(cfg, h, ps[i], envs[i]);
  }

  // ------------------------------------------------------------------------------------
  // Fields that alternate

  // The next field opens when the current one has ended, and has the other parity.
  predicate Alternates(cfg: Config, st: State, f: Field, p: Packet)
  {
    Opening(cfg, st, p) && f.seen != [] ==> Ended(cfg, f) && p.odd != f.seen[|f.seen| - 1].odd
  }

  // Packets may be lost, but not the last one of a field.
  ghost predicate RunsAlternately(cfg: Config, st: State, ps: seq<Packet>, envs: seq<Env>, i: nat)
    requires GoodRun(cfg, st, ps, envs) && i <= |ps|
  {
    && RunsInOrder(cfg, st, ps, envs, i) && RunsWithParity(cfg, st, ps, envs, i)
    && forall k :: 0 <= k < i ==> Alternates(cfg, At(cfg, st, ps, envs, k).st, At(cfg, st, ps, envs, k).field, ps[k])
  }

  // While the second field of a pair is awaited, the current field is the first one, or an even
  // one that has not ended, and nothing else has come.
  ghost predicate InStep(cfg: Config, h: History)
  {
    h.st.second && Known(h) ==>
      && h.clean && h.field.seen != []
      && (h.field.seen[|h.field.seen| - 1].odd <==> Ended(cfg, h.field))
  }

  lemma StepKeepsInStep(cfg: Config, h: History, p: Packet, env: Env)
    requires cfg.scan.INTERLEAVED? && Whole(cfg) && |h.st.buffer| == BufferSize(cfg) && GoodPacket(p)
    requires InStep(cfg, h) && InOrder(cfg, h.st, h.field, p)
    requires KeepsParity(cfg, h.st, h.field, p) && Alternates(cfg, h.st, h.field, p)
    ensures InStep(cfg, Next(cfg, h, p, env))
    ensures Step(cfg, h.st, p, env).event.Queued? && Known(h) ==> !p.odd
  {
    hide Step, Verdict, Opens;
    StepPairs(cfg, h.st, p, env);
  }

  lemma {:induction false} AlwaysInStep(cfg: Config, st: State, ps: seq<Packet>, envs: seq<Env>, i: nat)
    requires cfg.scan.INTERLEAVED? && GoodRun(cfg, st, ps, envs) && i <= |ps| && RunsAlternately(cfg, st, ps, envs, i)
    ensures InStep(cfg, At(cfg, st, ps, envs, i))
  {
    hide Step, Next, InOrder, KeepsParity, Alternates;
    if i > 0 {
      var h := At(cfg, st, ps, envs, i - 1);
      AlwaysInStep(cfg, st, ps, envs, i - 1);
      assert InOrder(cfg, h.st, h.field, ps[i - 1]) && KeepsParity(cfg, h.st, h.field, ps[i - 1]);
      assert Alternates(cfg, h.st, h.field, ps[i - 1]);
      StepKeepsInStep(cfg, h, ps[i - 1], envs[i - 1]);
    }
  }

  // Once a field has finished, _secondFrame is set only by a field of this run.
  lemma {:induction false} KnownAfterFirst(cfg: Config, st: State, ps: seq<Packet>, envs: seq<Env>, i: nat)
    requires cfg.scan.INTERLEAVED? && GoodRun(cfg, st, ps, envs) && i <= |ps|
    ensures At(cfg, st, ps, envs, i).st.second && FinishedOdds(cfg, ps[..i]) != [] ==> Known(At(cfg, st, ps, envs, i))
  {
    hide Step, Verdict, FinishedOdds;
    if i > 0 {
      KnownAfterFirst(cfg, st, ps, envs, i - 1);
      OddsSnoc(cfg, ps, i - 1);
      StepPairs(cfg, At(cfg, st, ps, envs, i - 1).st, ps[i - 1], envs[i - 1]);
    } else {
      NothingFinished(cfg, ps);
    }
  }

  lemma {:induction false} NothingFinished(cfg: Config, ps: seq<Packet>)
    ensures FinishedOdds(cfg, ps[..0]) == []
  {}

  // From any value of _secondFrame and of the count, with fields that alternate and in which any
  // packets but the last may be lost: every frame but possibly one queued with the very first
  // field is an odd field and the even one after it.  If all packets of both came, the flag and
  // the verdict on the odd field are complete and the frame is the weave of the two; and if both
  // are complete then all packets came, unless the odd field has a stale count.
  lemma {:induction false} AlternatingFieldsWeave(cfg: Config, st: State, ps: seq<Packet>, envs: seq<Env>, i: nat)
    requires cfg.scan.INTERLEAVED? && GoodRun(cfg, st, ps, envs) && i < |ps|
    requires RunsAlternately(cfg, st, ps, envs, i + 1)
    requires st.done < WORD16 && cfg.packetsPerField < WORD16
    requires Run(cfg, st, ps, envs).events[i].Queued? && FinishedOdds(cfg, ps[..i]) != []
    ensures var n, e, h := cfg.packetsPerField, Run(cfg, st, ps, envs).events[i], At(cfg, st, ps, envs, i);
      var first, second := h.first.seen, At(cfg, st, ps, envs, i + 1).field.seen;
      var whole := AllPresent(first, n) && AllPresent(second, n);
      && OneParity(first, true) && OneParity(second, false) && first != [] && second != []
      && (whole ==> h.verdict == Complete && e.flag == Complete
                    && AllGood(first) && AllGood(second) && Woven(e.buffer, PayloadsOf(first), PayloadsOf(second)))
      && (h.verdict == Complete && e.flag == Complete ==> whole || StaleCompletes(h.first, n))
  {
    hide Run, Step, Verdict, AllPresent, AllGood, PayloadsOf, Woven, InOrder, KeepsParity, Alternates, OneParity;
    hide FinishedOdds, PlacesOk, StaleCompletes;
    var h := At(cfg, st, ps, envs, i);
    EventAt(cfg, st, ps, envs, i);
    StepPairs(cfg, h.st, ps[i], envs[i]);
    KnownAfterFirst(cfg, st, ps, envs, i);
    AlwaysInStep(cfg, st, ps, envs, i);
    CompleteIffBothPresent(cfg, st, ps, envs, i);
    assert InOrder(cfg, h.st, h.field, ps[i]) && KeepsParity(cfg, h.st, h.field, ps[i])
      && Alternates(cfg, h.st, h.field, ps[i]);
    StepKeepsInStep(cfg, h, ps[i], envs[i]);
    FieldsOfPair(cfg, st, ps, envs, i);
    var n := cfg.packetsPerField;
    if AllPresent(h.first.seen, n) && AllPresent(At(cfg, st, ps, envs, i + 1).field.seen, n) {
      FrameIsWoven(cfg, st, ps, envs, i);
    }
  }

  lemma {:induction false} FieldsOfPair(cfg: Config, st: State, ps: seq<Packet>, envs: seq<Env>, i: nat)
    requires cfg.scan.INTERLEAVED? && GoodRun(cfg, st, ps, envs) && i < |ps|
    requires RunsAlternately(cfg, st, ps, envs, i + 1)
    requires st.done < WORD16 && InField(cfg, ps[i])
    ensures OneParity(At(cfg, st, ps, envs, i).first.seen, true)
    ensures OneParity(At(cfg, st, ps, envs, i + 1).field.seen, ps[i].odd)
    ensures At(cfg, st, ps, envs, i + 1).field.seen != []
  {
    hide Step, InOrder, KeepsParity, Opens, Verdict, OneParity, Alternates, AllInPlace, Holds, Ascending, GoodEnv;
    var h := At(cfg, st, ps, envs, i);
    AlwaysPlaces(cfg, st, ps, envs, i);
    assert KeepsParity(cfg, h.st, h.field, ps[i]);
    ExtendsParity(cfg, h.st, h.field, ps[i]);
  }
}
