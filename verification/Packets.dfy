/**
 The packet header of `usbtv_definitions.h`: a big-endian 32-bit word holding a marker, a frame
 id, the parity of the field and the packet number.
 */
module Packets {

  // USBTV_FRAME_OK, USBTV_FRAME_ID, USBTV_ODD and USBTV_PACKET_NO, on the word in host order
  function FrameOk(w: bv32): bool { w & 0xff00_0000 == 0x8800_0000 }

  function FrameId(w: bv32): bv32 { (w & 0x00ff_0000) >> 16 }

  function Odd(w: bv32): bool { (w & 0x0000_f000) >> 15 != 0 }

  function PacketNo(w: bv32): bv32 { w & 0x0000_0fff }

  // __be32_to_cpu of the four bytes at the start of a packet
  function Word(a: bv8, b: bv8, c: bv8, d: bv8): bv32
  {
    ((a as bv32) << 24) | ((b as bv32) << 16) | ((c as bv32) << 8) | (d as bv32)
  }

  // The header of a packet; the source ignores the three bits below the parity.
  function Header(id: bv32, odd: bool, number: bv32, ignored: bv32): bv32
  {
    0x8800_0000 | (id << 16) | (if odd then 0x8000 else 0) | (ignored << 12) | number
  }

  // Every header written is read back, whatever the ignored bits are.
  lemma ReadsWhatIsWritten(id: bv32, odd: bool, number: bv32, ignored: bv32)
    requires id < 0x100 && number < 0x1000 && ignored < 8
    ensures var w := Header(id, odd, number, ignored);
      FrameOk(w) && FrameId(w) == id && Odd(w) == odd && PacketNo(w) == number
  {}

  // Every word that is accepted is a header of what is read from it.
  lemma AcceptsOnlyHeaders(w: bv32)
    requires FrameOk(w)
    ensures FrameId(w) < 0x100 && PacketNo(w) < 0x1000
    ensures w == Header(FrameId(w), Odd(w), PacketNo(w), (w & 0x7000) >> 12)
  {}

  // Every word is that of its four bytes.
  lemma WordRoundTrip(w: bv32)
    ensures Word((w >> 24) as bv8, ((w >> 16) & 0xff) as bv8, ((w >> 8) & 0xff) as bv8, (w & 0xff) as bv8) == w
  {}
}
