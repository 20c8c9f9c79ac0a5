/**
 * The byte-wide state words of the doorbell controller and their two
 * accessors, bGetState and SetState. Both the application flag byte and the
 * timer record's running mask are such words; the source reaches either one
 * through a pointer, which the model represents by a StateByte object.
 */
module StateBits {

  /** A bit position inside one state byte. */
  type BitPos = p: nat | p < 8

  /** Bits of the application flag byte; the header's values are bit positions. */
  const STATE_KLINGEL_ROUTINE: BitPos := 2
  const STATE_KLINGEL_PUSHED: BitPos := 4

  /** The single-bit byte with bit `pos` set, as bitSet and bitClear build it. */
  function Mask(pos: BitPos): (m: bv8)
    ensures m == 1 << pos
  {
    match pos
    case 0 => 0x01 case 1 => 0x02 case 2 => 0x04 case 3 => 0x08
    case 4 => 0x10 case 5 => 0x20 case 6 => 0x40 case _ => 0x80
  }

  /** bGetState: bit `pos` of `bits` (bitRead shifts right and masks with 1). */
  function GetState(pos: BitPos, bits: bv8): (r: bool)
    ensures r <==> bits & Mask(pos) != 0
  {
    (bits >> pos) & 1 == 1
  }

  /** The value SetState leaves behind: bitSet or bitClear of bit `pos`. */
  function WithBit(bits: bv8, pos: BitPos, b: bool): (r: bv8)
    ensures GetState(pos, r) == b
    ensures forall q: BitPos :: q != pos ==> GetState(q, r) == GetState(q, bits)
  {
    if b then bits | Mask(pos) else bits & !Mask(pos)
  }

  /** Two state bytes that agree on every bit are the same byte. */
  lemma BitsDetermineByte(x: bv8, y: bv8)
    requires forall q: BitPos :: GetState(q, x) == GetState(q, y)
    ensures x == y
  {
    assert GetState(0, x) == GetState(0, y);
    assert GetState(1, x) == GetState(1, y);
    assert GetState(2, x) == GetState(2, y);
    assert GetState(3, x) == GetState(3, y);
    assert GetState(4, x) == GetState(4, y);
    assert GetState(5, x) == GetState(5, y);
    assert GetState(6, x) == GetState(6, y);
    assert GetState(7, x) == GetState(7, y);
  }

  /**
   * WithBit is the only byte whose bit `pos` is `b` and whose other bits are
   * those of `bits`: SetState changes exactly one bit.
   */
  lemma WithBitUnique(bits: bv8, pos: BitPos, b: bool, y: bv8)
    requires GetState(pos, y) == b
    requires forall q: BitPos :: q != pos ==> GetState(q, y) == GetState(q, bits)
    ensures y == WithBit(bits, pos, b)
  {
    var r := WithBit(bits, pos, b);
    forall q: BitPos ensures GetState(q, y) == GetState(q, r) {
      if q != pos {
        assert GetState(q, r) == GetState(q, bits);
      }
    }
    BitsDetermineByte(y, r);
  }

  /** Writing the value a bit already has leaves the byte as it was. */
  lemma WithOwnBit(bits: bv8, pos: BitPos)
    ensures WithBit(bits, pos, GetState(pos, bits)) == bits
  {
    WithBitUnique(bits, pos, GetState(pos, bits), bits);
  }

  /** Repeating SetState with the same arguments is a no-op. */
  lemma WithBitIdempotent(bits: bv8, pos: BitPos, b: bool)
    ensures WithBit(WithBit(bits, pos, b), pos, b) == WithBit(bits, pos, b)
  {
    WithOwnBit(WithBit(bits, pos, b), pos);
  }

  /** A state byte in memory, reached by the source through a `uint8_t *`. */
  class StateByte {
    var bits: bv8

    /** Globals start zero-initialised. */
    constructor ()
      ensures bits == 0
    {
      bits := 0;
    }
  }

  /** SetState: sets (b) or clears (!b) bit `pos` of the byte `s` points to. */
  method SetState(pos: BitPos, s: StateByte, b: bool)
    modifies s
    ensures s.bits == WithBit(old(s.bits), pos, b)
    ensures GetState(pos, s.bits) == b
    ensures forall q: BitPos :: q != pos ==> GetState(q, s.bits) == GetState(q, old(s.bits))
  {
    if b {
      s.bits := s.bits | Mask(pos);
    } else {
      s.bits := s.bits & !Mask(pos);
    }
  }
}
