/** The bitfield encoders of the serial driver: each frame-format choice
    becomes the bits it sets in a control register, and each field has a
    mask that clears it (src/serial.rs:25-108).  Beside each encoder stands
    the hardware's reading of the field, so that every encoding is proved to
    mean the choice it was made from. */
module Encoding {
  import opened Registers

  datatype Option<T> = None | Some(value: T)

  /** The parity modes the driver offers. */
  datatype Parity = Disabled | Even | Odd {

    /** The UPM0 field for this mode; the reserved pattern (UPM00 alone) is
        never produced. */
    function Bits(): (r: bv8)
      ensures r & Parity.Mask() == 0
      ensures r != UPM00
      ensures ParityOf(r) == Some(this)
    {
      match this
      case Disabled => 0 | 0
      case Even => UPM01 | 0
      case Odd => UPM01 | UPM00
    }

    /** The mask that clears the parity field and keeps every other bit. */
    static function Mask(): (r: bv8)
      ensures r & ParityField == 0 && r | ParityField == 0xFF
    {
      !(UPM01 | UPM00)
    }
  }

  /** The number of stop bits the driver offers. */
  datatype StopBits = OneBit | TwoBits {

    /** The USBS0 field for this choice. */
    function Bits(): (r: bv8)
      ensures r & StopBits.Mask() == 0
      ensures StopBitsOf(r) == this
    {
      match this
      case OneBit => 0
      case TwoBits => USBS0
    }

    /** The mask that clears the stop-bit field and keeps every other bit. */
    static function Mask(): (r: bv8)
      ensures r & StopField == 0 && r | StopField == 0xFF
    {
      !USBS0
    }
  }

  /** The word types the driver can be instantiated with (u5, u6, u7, u8);
      there is no nine-bit word. */
  datatype WordWidth = U5 | U6 | U7 | U8 {

    /** The number of data bits in a frame of this width. */
    function DataBits(): (n: nat)
      ensures 5 <= n <= 8
    {
      match this
      case U5 => 5
      case U6 => 6
      case U7 => 7
      case U8 => 8
    }

    /** The character-size flags of this width: the part that belongs to
        UCSR0B (the UCSZ02 bit) and the part that belongs to UCSR0C (the
        UCSZ01 and UCSZ00 bits). */
    function CharSizeBits(): (r: (bv8, bv8))
      ensures r.0 == 0
      ensures r.1 & !CharSizeField == 0
      ensures CharSizeOf(r.0, r.1) == Some(DataBits())
    {
      match this
      case U8 => (0, UCSZ01 | UCSZ00)
      case U5 => (0, 0)
      case U6 => (0, 0 | UCSZ00)
      case U7 => (0, UCSZ01 | 0)
    }

    /** The words of this width, seen as bytes: those below 2^DataBits(). */
    predicate Fits(word: bv8) {
      match this
      case U5 => word < 0x20
      case U6 => word < 0x40
      case U7 => word < 0x80
      case U8 => true
    }
  }

  /** How the hardware reads the parity field of a UCSR0C value. */
  function ParityOf(c: bv8): Option<Parity> {
    var f := c & ParityField;
    if f == 0 then Some(Disabled)
    else if f == UPM01 then Some(Even)
    else if f == UPM01 | UPM00 then Some(Odd)
    else None
  }

  /** How the hardware reads the stop-bit field of a UCSR0C value. */
  function StopBitsOf(c: bv8): StopBits {
    if c & StopField == 0 then OneBit else TwoBits
  }

  /** How the hardware reads the character size from UCSR0B (its UCSZ02
      bit) and UCSR0C (its UCSZ01 and UCSZ00 bits): 5 to 8 data bits when
      UCSZ02 is clear, 9 when all three are set, reserved otherwise. */
  function CharSizeOf(b: bv8, c: bv8): Option<nat> {
    var f := c & CharSizeField;
    if b & UCSZ02 == 0 then Some(5 + (f >> 1) as nat)
    else if f == CharSizeField then Some(9)
    else None
  }

  /** The mask-then-or update that merges an encoding into a register. */
  function SetField(reg: bv8, mask: bv8, bits: bv8): (r: bv8)
    ensures bits & mask == 0 ==> r & !mask == bits
    ensures r & mask == (reg & mask) | (bits & mask)
  {
    (reg & mask) | bits
  }

  /** Setting a field twice to the same bits is setting it once. */
  lemma SetFieldIdempotent(reg: bv8, mask: bv8, bits: bv8)
    ensures SetField(SetField(reg, mask, bits), mask, bits) == SetField(reg, mask, bits)
  {
  }

  /** A later update of the same field overwrites an earlier one. */
  lemma SetFieldOverwrites(reg: bv8, mask: bv8, first: bv8, second: bv8)
    requires first & mask == 0
    ensures SetField(SetField(reg, mask, first), mask, second) == SetField(reg, mask, second)
  {
  }

  /** Updates of two disjoint fields commute. */
  lemma SetFieldCommutes(reg: bv8, m1: bv8, b1: bv8, m2: bv8, b2: bv8)
    requires !m1 & !m2 == 0
    requires b1 & m1 == 0 && b2 & m2 == 0
    ensures SetField(SetField(reg, m1, b1), m2, b2) == SetField(SetField(reg, m2, b2), m1, b1)
  {
  }

  /** Whatever else a UCSR0C value holds, merging a parity mode and a
      stop-bit choice into it makes the hardware read back exactly those. */
  lemma FramingFieldsRoundTrip(c: bv8, p: Parity, s: StopBits)
    ensures ParityOf(SetField(SetField(c, Parity.Mask(), p.Bits()), StopBits.Mask(), s.Bits())) == Some(p)
    ensures StopBitsOf(SetField(SetField(c, Parity.Mask(), p.Bits()), StopBits.Mask(), s.Bits())) == s
  {
  }

  /** The reserved parity pattern is not a parity mode, and distinct modes,
      stop-bit choices and word widths have distinct encodings. */
  lemma EncodingsDistinct(p: Parity, q: Parity, s: StopBits, t: StopBits, w: WordWidth, v: WordWidth)
    ensures ParityOf(UPM00) == None
    ensures p != q ==> p.Bits() != q.Bits()
    ensures s != t ==> s.Bits() != t.Bits()
    ensures w != v ==> w.CharSizeBits().1 != v.CharSizeBits().1
  {
  }
}
