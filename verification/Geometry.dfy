/**
 Where the bytes of a field go in a frame buffer.

 A line is 720 pixels of two bytes; a packet carries 960 bytes, two thirds of a line.  In an
 interleaved frame a packet is written in two halves, three halves to a line, the odd field to
 lines 0, 2, 4, ... and the even field to lines 1, 3, 5, ...
 */
module Geometry {
  import opened Modular

  const PACKET_SIZE: nat := 1024
  const PAYLOAD_SIZE: nat := 960
  const HALF_PAYLOAD: nat := 480
  const WIDTH: nat := 720
  const LINE_SIZE: nat := 1440

  // DeviceParams: packets per field of a picture with `height` lines, computed before the
  // height is halved for frames that hold one field.
  function PacketsPerField(height: nat): nat { WIDTH * height / PAYLOAD_SIZE }

  function FrameSize(height: nat): nat { WIDTH * height * 2 }

  // One byte of a field: the parity of the field, the packet number and the byte of the payload.
  datatype Place = Place(odd: bool, packet: nat, byte: nat)

  // packetToInterleavedFrame
  function PartIndex(packet: nat, half: nat): nat { packet * 2 + half }

  function LineIndex(part: nat, odd: bool): nat { part / 3 * 2 + if odd then 0 else 1 }

  function PartOffset(part: nat, odd: bool): nat { LineIndex(part, odd) * LINE_SIZE + HALF_PAYLOAD * (part % 3) }

  function InterleavedOffset(p: Place): nat
  {
    PartOffset(PartIndex(p.packet, p.byte / HALF_PAYLOAD), p.odd) + p.byte % HALF_PAYLOAD
  }

  function ProgressiveOffset(packet: nat, byte: nat): nat { packet * PAYLOAD_SIZE + byte }

  // Which byte of which field belongs at an offset of an interleaved buffer.
  function PlaceAt(offset: nat): Place
  {
    var line, rest := offset / LINE_SIZE, offset % LINE_SIZE;
    var part := line / 2 * 3 + rest / HALF_PAYLOAD;
    Place(line % 2 == 0, part / 2, part % 2 * HALF_PAYLOAD + rest % HALF_PAYLOAD)
  }

  // ------------------------------------------------------------------------------------
  // The interleaved map is a bijection

  lemma OffsetParts(p: Place)
    requires p.byte < PAYLOAD_SIZE
    ensures var part := PartIndex(p.packet, p.byte / HALF_PAYLOAD); var o := InterleavedOffset(p);
      && o / LINE_SIZE == LineIndex(part, p.odd)
      && o % LINE_SIZE == HALF_PAYLOAD * (part % 3) + p.byte % HALF_PAYLOAD
      && part / 2 == p.packet && part % 2 == p.byte / HALF_PAYLOAD
  {
    var part := PartIndex(p.packet, p.byte / HALF_PAYLOAD);
    DivModUnique(InterleavedOffset(p), LINE_SIZE, LineIndex(part, p.odd),
      HALF_PAYLOAD * (part % 3) + p.byte % HALF_PAYLOAD);
    DivModUnique(part, 2, p.packet, p.byte / HALF_PAYLOAD);
  }

  // Every byte is found again from the offset it is written to, so no two bytes share one ...
  lemma PlaceOfOffset(p: Place)
    requires p.byte < PAYLOAD_SIZE
    ensures PlaceAt(InterleavedOffset(p)) == p
  {
    OffsetParts(p);
    var part := PartIndex(p.packet, p.byte / HALF_PAYLOAD);
    var rest := HALF_PAYLOAD * (part % 3) + p.byte % HALF_PAYLOAD;
    DivModUnique(rest, HALF_PAYLOAD, part % 3, p.byte % HALF_PAYLOAD);
    DivModUnique(LineIndex(part, p.odd), 2, part / 3, if p.odd then 0 else 1);
  }

  // ... and every offset is written by the byte that belongs there.
  lemma OffsetOfPlace(offset: nat)
    ensures PlaceAt(offset).byte < PAYLOAD_SIZE && InterleavedOffset(PlaceAt(offset)) == offset
  {
    var line, rest := offset / LINE_SIZE, offset % LINE_SIZE;
    var k, b := rest / HALF_PAYLOAD, rest % HALF_PAYLOAD;
    assert k < 3;
    var part := line / 2 * 3 + k;
    DivModUnique(part, 3, line / 2, k);
    var p := PlaceAt(offset);
    DivModUnique(p.byte, HALF_PAYLOAD, part % 2, b);
  }

  // Odd fields fill the even-numbered lines, even fields the others.
  lemma FieldsAlternate(p: Place)
    requires p.byte < PAYLOAD_SIZE
    ensures InterleavedOffset(p) / LINE_SIZE % 2 == if p.odd then 0 else 1
  {
    hide InterleavedOffset;
    OffsetParts(p);
    var part := PartIndex(p.packet, p.byte / HALF_PAYLOAD);
    DivModUnique(LineIndex(part, p.odd), 2, part / 3, if p.odd then 0 else 1);
  }

  // ------------------------------------------------------------------------------------
  // The packets of a field fill the buffer exactly

  // Packets and buffer size of one field, for the four remainders of the height.
  lemma FieldSizes(height: nat)
    ensures var k := height / 4;
      && PacketsPerField(height) == 3 * k + (if height % 4 == 0 then 0 else height % 4 - 1)
      && FrameSize(height / 2) == PAYLOAD_SIZE * (3 * k) + (if height % 4 <= 1 then 0 else LINE_SIZE)
  {
    var k, r := height / 4, height % 4;
    assert height == 4 * k + r;
    var more := if r == 0 then 0 else r - 1;
    DivModUnique(WIDTH * height, PAYLOAD_SIZE, 3 * k + more, WIDTH * r - PAYLOAD_SIZE * more);
    DivModUnique(height, 2, 2 * k + r / 2, r % 2);
  }

  ghost predicate InterleavedTiles(height: nat)
  {
    forall p: Place :: p.byte < PAYLOAD_SIZE ==>
      (p.packet < PacketsPerField(height) <==> InterleavedOffset(p) < FrameSize(height))
  }

  lemma LineBelow(p: Place, height: nat)
    requires p.byte < PAYLOAD_SIZE
    ensures InterleavedOffset(p) < FrameSize(height) <==>
      LineIndex(PartIndex(p.packet, p.byte / HALF_PAYLOAD), p.odd) < height
  {
    OffsetParts(p);
    var o := InterleavedOffset(p);
    assert FrameSize(height) == LINE_SIZE * height;
    assert o == LINE_SIZE * (o / LINE_SIZE) + o % LINE_SIZE;
  }

  lemma TilesIfDivisible(p: Place, height: nat)
    requires p.byte < PAYLOAD_SIZE && height % 4 == 0
    ensures p.packet < PacketsPerField(height) <==> InterleavedOffset(p) < FrameSize(height)
  {
    hide InterleavedOffset;
    LineBelow(p, height);
    FieldSizes(height);
  }

  // A byte of the odd field that no packet covers, or one of the even field beyond the buffer.
  function Stray(height: nat): Place
  {
    var k := height / 4;
    match height % 4
    case 1 => Place(true, 3 * k, 0)
    case 2 => Place(true, 3 * k + 1, 0)
    case _ => Place(false, 3 * k + 1, 480)
  }

  lemma StrayByte(height: nat)
    requires height % 4 != 0
    ensures var p := Stray(height);
      p.byte < PAYLOAD_SIZE && !(p.packet < PacketsPerField(height) <==> InterleavedOffset(p) < FrameSize(height))
  {
    hide InterleavedOffset;
    LineBelow(Stray(height), height);
    FieldSizes(height);
  }

  // Exactly when the height is divisible by four, as both norms' heights are.
  lemma InterleavedTilesExactly(height: nat)
    ensures InterleavedTiles(height) <==> height % 4 == 0
  {
    hide InterleavedOffset, PacketsPerField, FrameSize, Stray;
    if height % 4 == 0 {
      forall p: Place | p.byte < PAYLOAD_SIZE
        ensures p.packet < PacketsPerField(height) <==> InterleavedOffset(p) < FrameSize(height)
      {
        TilesIfDivisible(p, height);
      }
    } else {
      StrayByte(height);
    }
  }

  ghost predicate ProgressiveTiles(height: nat)
  {
    forall n: nat, b: nat :: b < PAYLOAD_SIZE ==>
      (n < PacketsPerField(height) <==> ProgressiveOffset(n, b) < FrameSize(height / 2))
  }

  // One field in a frame of half the height.
  lemma ProgressiveTilesExactly(height: nat)
    ensures ProgressiveTiles(height) <==> height % 4 <= 1
  {
    hide PacketsPerField, FrameSize;
    FieldSizes(height);
    var k := height / 4;
    if height % 4 == 2 {
      assert !(3 * k + 1 < PacketsPerField(height) <==> ProgressiveOffset(3 * k + 1, 0) < FrameSize(height / 2));
    } else if height % 4 == 3 {
      assert !(3 * k + 1 < PacketsPerField(height) <==> ProgressiveOffset(3 * k + 1, 500) < FrameSize(height / 2));
    }
  }
}
