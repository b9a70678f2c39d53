/**
 What the USB thread reads in a request block: where its packets begin, and what their bytes say.
 */
module RequestBlocks {
  import opened Counting
  import opened Reassembly
  import opened UsbDriver
  import G = Geometry
  import P = Packets

  // ------------------------------------------------------------------------------------
  // The bytes of one packet

  // A header word as it is sent, the most significant byte first.
  function Sent(w: bv32): seq<Byte>
  {
    [(w >> 24) as bv8, ((w >> 16) & 0xff) as bv8, ((w >> 8) & 0xff) as bv8, (w & 0xff) as bv8]
  }

  lemma WordOfSent(w: bv32)
    ensures P.Word(Sent(w)[0], Sent(w)[1], Sent(w)[2], Sent(w)[3]) == w
  {
    P.WordRoundTrip(w);
  }

  lemma SentWord(a: bv8, b: bv8, c: bv8, d: bv8)
    ensures Sent(P.Word(a, b, c, d)) == [a, b, c, d]
  {}

  lemma MarkerIsFirstByte(a: bv8, b: bv8, c: bv8, d: bv8)
    ensures P.FrameOk(P.Word(a, b, c, d)) <==> a == 0x88
  {}

  // A packet as the device sends it is read as what was sent: header, 960 bytes of picture, and
  // whatever follows up to 1024 bytes.
  lemma DecodesWhatIsSent(id: bv32, odd: bool, number: bv32, ignored: bv32, payload: seq<Byte>, rest: seq<Byte>)
    requires id < 0x100 && number < 0x1000 && ignored < 8
    requires |payload| == G.PAYLOAD_SIZE && 4 + |payload| + |rest| == G.PACKET_SIZE
    ensures Decode(Sent(P.Header(id, odd, number, ignored)) + payload + rest)
      == Some(Packet(id as nat, number as nat, odd, payload))
  {
    hide P.Header, P.FrameOk, P.FrameId, P.Odd, P.PacketNo, P.Word, Sent;
    var w := P.Header(id, odd, number, ignored);
    var raw := Sent(w) + payload + rest;
    WordOfSent(w);
    assert |Sent(w)| == 4 by { SentSize(w); }
    assert raw[0] == Sent(w)[0] && raw[1] == Sent(w)[1] && raw[2] == Sent(w)[2] && raw[3] == Sent(w)[3];
    P.ReadsWhatIsWritten(id, odd, number, ignored);
    assert raw[4..4 + G.PAYLOAD_SIZE] == payload;
  }

  lemma SentSize(w: bv32)
    ensures |Sent(w)| == 4
  {}

  // A packet is ignored exactly if its first byte is not the marker.
  lemma RejectsByMarker(raw: seq<Byte>)
    requires |raw| == G.PACKET_SIZE
    ensures Decode(raw).None? <==> raw[0] != 0x88
  {
    hide P.FrameOk, P.Word;
    MarkerIsFirstByte(raw[0], raw[1], raw[2], raw[3]);
  }

  // Whatever is read from a packet was in it.
  lemma ReadsOnlyWhatIsThere(raw: seq<Byte>) returns (id: bv32, number: bv32, ignored: bv32)
    requires |raw| == G.PACKET_SIZE && Decode(raw).Some?
    ensures var p := Decode(raw).value;
      && id as nat == p.id < 0x100 && number as nat == p.number < 0x1000
      && raw == Sent(P.Header(id, p.odd, number, ignored)) + p.payload + raw[4 + G.PAYLOAD_SIZE..]
  {
    hide P.Header, P.FrameOk, P.FrameId, P.Odd, P.PacketNo, P.Word, Sent;
    var w := P.Word(raw[0], raw[1], raw[2], raw[3]);
    id, number, ignored := P.FrameId(w), P.PacketNo(w), (w & 0x7000) >> 12;
    P.AcceptsOnlyHeaders(w);
    SentWord(raw[0], raw[1], raw[2], raw[3]);
    assert raw == raw[..4] + raw[4..4 + G.PAYLOAD_SIZE] + raw[4 + G.PAYLOAD_SIZE..];
    assert raw[..4] == [raw[0], raw[1], raw[2], raw[3]];
  }

  // ------------------------------------------------------------------------------------
  // Where the packets are

  function Length(d: IsoPacket): int { d.length }

  function Count(d: IsoPacket): int { Wholes(d) }

  // Packet j of isochronous packet i has been received whole.
  predicate Received(descs: seq<IsoPacket>, i: nat, j: nat)
  {
    i < |descs| && descs[i].ok && (j + 1) * G.PACKET_SIZE <= descs[i].actualLength
  }

  // The lengths asked for, not those received, say where an isochronous packet begins.
  ghost function Start(descs: seq<IsoPacket>, i: nat, j: nat): int
    requires i <= |descs|
  {
    Sum(Length, descs[..i]) + j * G.PACKET_SIZE
  }

  // Packets received whole before packet j of isochronous packet i.
  ghost function Rank(descs: seq<IsoPacket>, i: nat, j: nat): int
    requires i <= |descs|
  {
    Sum(Count, descs[..i]) + j
  }

  ghost predicate HasRank(descs: seq<IsoPacket>, i: nat, j: nat, k: int)
  {
    Received(descs, i, j) && Rank(descs, i, j) == k
  }

  ghost predicate IsRanked(descs: seq<IsoPacket>, k: int) { exists i: nat, j: nat :: HasRank(descs, i, j, k) }

  lemma {:induction false} OffsetIsSum(descs: seq<IsoPacket>, i: nat)
    requires i <= |descs|
    ensures Sum(Length, descs[..i]) == OffsetOf(descs, i)
  {
    if i > 0 {
      OffsetIsSum(descs, i - 1);
      assert descs[..i] == descs[..i - 1] + [descs[i - 1]];
      SumAppend(Length, descs[..i - 1], descs[i - 1]);
    }
  }

  lemma RankNext(descs: seq<IsoPacket>, i: nat)
    requires i < |descs|
    ensures Rank(descs, i + 1, 0) == Rank(descs, i, Wholes(descs[i]))
  {
    assert descs[..i + 1] == descs[..i] + [descs[i]];
    SumAppend(Count, descs[..i], descs[i]);
  }

  lemma ReceivedIsWhole(descs: seq<IsoPacket>, i: nat, j: nat)
    requires i < |descs|
    ensures Received(descs, i, j) <==> j < Wholes(descs[i])
  {}

  predicate Inside(starts: seq<nat>, size: nat)
  {
    forall k :: 0 <= k < |starts| ==> starts[k] + G.PACKET_SIZE <= size
  }

  function Read(data: seq<Byte>, at: nat): seq<Packet>
    requires at + G.PACKET_SIZE <= |data|
  {
    match Decode(data[at..at + G.PACKET_SIZE]) { case None => [] case Some(p) => [p] }
  }

  // The packets at the given places, those with a bad header left out.
  function ReadAt(data: seq<Byte>, starts: seq<nat>): seq<Packet>
    requires Inside(starts, |data|)
  {
    if starts == [] then [] else ReadAt(data, starts[..|starts| - 1]) + Read(data, starts[|starts| - 1])
  }

  // The places that come before packet m of isochronous packet n.
  ghost function Starts(descs: seq<IsoPacket>, n: nat, m: nat): (r: seq<nat>)
    requires n <= |descs| && (m > 0 ==> n < |descs|)
    decreases n, m
  {
    if m > 0 then Starts(descs, n, m - 1) + [OffsetOf(descs, n) + (m - 1) * G.PACKET_SIZE]
    else if n > 0 then Starts(descs, n - 1, Wholes(descs[n - 1]))
    else []
  }

  lemma {:induction false} StartsRank(descs: seq<IsoPacket>, n: nat, m: nat)
    requires n <= |descs| && (m > 0 ==> n < |descs|)
    ensures |Starts(descs, n, m)| == Rank(descs, n, m)
    decreases n, m
  {
    if m > 0 {
      StartsRank(descs, n, m - 1);
    } else if n > 0 {
      StartsRank(descs, n - 1, Wholes(descs[n - 1]));
      RankNext(descs, n - 1);
    }
  }

  lemma {:induction false} StartsInside(descs: seq<IsoPacket>, size: nat, n: nat, m: nat, k: nat)
    requires DescsFit(descs, size) && n <= |descs| && (m > 0 ==> Received(descs, n, m - 1))
    requires k < |Starts(descs, n, m)|
    ensures Starts(descs, n, m)[k] + G.PACKET_SIZE <= size
    decreases n, m
  {
    if m > 0 {
      OffsetsFit(descs, size, n);
      if k < |Starts(descs, n, m - 1)| {
        StartsInside(descs, size, n, m - 1, k);
      }
    } else if n > 0 {
      StartsInside(descs, size, n - 1, Wholes(descs[n - 1]), k);
    }
  }

  // Every packet received whole is at the place of its rank.
  lemma {:induction false} PlaceOfPacket(descs: seq<IsoPacket>, n: nat, m: nat, i: nat, j: nat)
    requires n <= |descs| && (m > 0 ==> n < |descs|)
    requires Received(descs, i, j) && (i < n || (i == n && j < m))
    ensures 0 <= Rank(descs, i, j) < |Starts(descs, n, m)|
    ensures Starts(descs, n, m)[Rank(descs, i, j)] == Start(descs, i, j)
    decreases n, m
  {
    ReceivedIsWhole(descs, i, j);
    StartsRank(descs, n, m);
    if m > 0 {
      StartsRank(descs, n, m - 1);
      if i == n && j == m - 1 {
        OffsetIsSum(descs, n);
      } else {
        PlaceOfPacket(descs, n, m - 1, i, j);
      }
    } else {
      PlaceOfPacket(descs, n - 1, Wholes(descs[n - 1]), i, j);
    }
  }

  // No other place is read.
  lemma {:induction false} PacketOfPlace(descs: seq<IsoPacket>, n: nat, m: nat, k: nat) returns (i: nat, j: nat)
    requires n <= |descs| && (m > 0 ==> Received(descs, n, m - 1)) && k < |Starts(descs, n, m)|
    ensures Received(descs, i, j) && (i < n || (i == n && j < m)) && Rank(descs, i, j) == k
    decreases n, m
  {
    StartsRank(descs, n, m);
    if m > 0 {
      StartsRank(descs, n, m - 1);
      if k == Rank(descs, n, m - 1) {
        i, j := n, m - 1;
      } else {
        i, j := PacketOfPlace(descs, n, m - 1, k);
      }
    } else {
      i, j := PacketOfPlace(descs, n - 1, Wholes(descs[n - 1]), k);
    }
  }

  lemma {:induction false} AllInside(data: seq<Byte>, descs: seq<IsoPacket>, n: nat, m: nat)
    requires DescsFit(descs, |data|) && n <= |descs| && (m > 0 ==> Received(descs, n, m - 1))
    ensures Inside(Starts(descs, n, m), |data|)
  {
    forall k | 0 <= k < |Starts(descs, n, m)| ensures Starts(descs, n, m)[k] + G.PACKET_SIZE <= |data| {
      StartsInside(descs, |data|, n, m, k);
    }
  }

  lemma {:induction false} NothingRead(data: seq<Byte>, descs: seq<IsoPacket>)
    ensures Starts(descs, 0, 0) == [] && ReadAt(data, []) == []
  {}

  lemma {:induction false} NothingFrom(data: seq<Byte>, at: nat)
    requires at <= |data|
    ensures PacketsFrom(data, at, 0) == []
  {}

  // One more packet of an isochronous packet.
  lemma OneMoreRead(data: seq<Byte>, descs: seq<IsoPacket>, n: nat, m: nat)
    requires n < |descs| && m > 0 && OffsetOf(descs, n) + m * G.PACKET_SIZE <= |data|
    requires Inside(Starts(descs, n, m), |data|) && Inside(Starts(descs, n, m - 1), |data|)
    ensures var at := OffsetOf(descs, n); var last := at + (m - 1) * G.PACKET_SIZE;
      && ReadAt(data, Starts(descs, n, m)) == ReadAt(data, Starts(descs, n, m - 1)) + Read(data, last)
      && PacketsFrom(data, at, m) == PacketsFrom(data, at, m - 1) + Read(data, last)
  {
    hide Decode, OffsetOf, Inside;
    var before := Starts(descs, n, m - 1);
    assert Starts(descs, n, m)[..|before|] == before;
  }

  // The first place of the next isochronous packet.
  lemma NextIsoPacket(data: seq<Byte>, descs: seq<IsoPacket>, n: nat)
    requires DescsFit(descs, |data|) && 0 < n <= |descs|
    ensures Starts(descs, n, 0) == Starts(descs, n - 1, Wholes(descs[n - 1]))
    ensures Wholes(descs[n - 1]) == 0 ==> PacketsOf(data, descs, n) == PacketsOf(data, descs, n - 1)
    ensures OffsetOf(descs, n - 1) + Wholes(descs[n - 1]) * G.PACKET_SIZE <= |data|
    ensures PacketsOf(data, descs, n) ==
      PacketsOf(data, descs, n - 1) + PacketsFrom(data, OffsetOf(descs, n - 1), Wholes(descs[n - 1]))
  {
    NextOf(data, descs, n - 1);
  }

  lemma {:induction false} ReadsInOrder(data: seq<Byte>, descs: seq<IsoPacket>, n: nat, m: nat)
    requires DescsFit(descs, |data|) && n <= |descs| && (m > 0 ==> Received(descs, n, m - 1))
    ensures Inside(Starts(descs, n, m), |data|)
    ensures m > 0 ==> OffsetOf(descs, n) + m * G.PACKET_SIZE <= |data|
    ensures ReadAt(data, Starts(descs, n, m)) ==
      PacketsOf(data, descs, n) + if m > 0 then PacketsFrom(data, OffsetOf(descs, n), m) else []
    decreases n, m
  {
    hide Decode, Starts, ReadAt, Read, PacketsFrom, DescsFit, Inside;
    AllInside(data, descs, n, m);
    if m > 0 {
      OffsetsFit(descs, |data|, n);
      ReadsInOrder(data, descs, n, m - 1);
      OneMoreRead(data, descs, n, m);
      NothingFrom(data, OffsetOf(descs, n));
    } else if n > 0 {
      ReadsInOrder(data, descs, n - 1, Wholes(descs[n - 1]));
      NextIsoPacket(data, descs, n);
    } else {
      assert ReadAt(data, Starts(descs, 0, 0)) == [] by { NothingRead(data, descs); }
    }
  }

  // A request block is read packet by packet: isochronous packet i begins where the lengths
  // before it add up to, its packet j 1024 * j bytes later; each packet received whole is read in
  // its turn, and nothing else is.
  lemma RequestBlockIsRead(data: seq<Byte>, descs: seq<IsoPacket>) returns (starts: seq<nat>)
    requires DescsFit(descs, |data|)
    ensures forall i: nat, j: nat :: Received(descs, i, j) ==>
      0 <= Rank(descs, i, j) < |starts| && starts[Rank(descs, i, j)] == Start(descs, i, j)
    ensures forall k :: 0 <= k < |starts| ==> IsRanked(descs, k)
    ensures Inside(starts, |data|)
    ensures PacketsOf(data, descs, |descs|) == ReadAt(data, starts)
  {
    hide DescsFit, Starts, Rank, PacketsOf, ReadAt;
    starts := Starts(descs, |descs|, 0);
    ReadsInOrder(data, descs, |descs|, 0);
    assert PacketsOf(data, descs, |descs|) + [] == PacketsOf(data, descs, |descs|);
    forall i: nat, j: nat | Received(descs, i, j)
      ensures 0 <= Rank(descs, i, j) < |starts| && starts[Rank(descs, i, j)] == Start(descs, i, j)
    {
      PlaceOfPacket(descs, |descs|, 0, i, j);
    }
    forall k | 0 <= k < |starts| ensures IsRanked(descs, k) {
      var i, j := PacketOfPlace(descs, |descs|, 0, k);
      assert HasRank(descs, i, j, k);
    }
  }
}
