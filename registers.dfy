/** The USART0 register block of the ATmega328P as the driver sees it: the
    single-bit masks it combines into field masks, and the five
    memory-mapped registers it reads and writes.  The mask values are those
    of the microcontroller's data sheet; the register-address table they come
    from (src/reg.rs) is not part of this model. */
module Registers {

  /** Rust's u16, the width of the baud-rate register. */
  newtype u16 = x: int | 0 <= x < 0x1_0000

  // UCSR0A: control and status register A
  const RXC0: bv8 := 0x80    // receive complete
  const UDRE0: bv8 := 0x20   // data register empty

  // UCSR0B: control and status register B
  const RXEN0: bv8 := 0x10   // receiver enable
  const TXEN0: bv8 := 0x08   // transmitter enable
  const UCSZ02: bv8 := 0x04  // character size, extended bit

  // UCSR0C: control and status register C (the frame format)
  const UMSEL01: bv8 := 0x80 // mode select, high bit
  const UMSEL00: bv8 := 0x40 // mode select, low bit
  const UPM01: bv8 := 0x20   // parity mode, high bit
  const UPM00: bv8 := 0x10   // parity mode, low bit
  const USBS0: bv8 := 0x08   // stop bit select
  const UCSZ01: bv8 := 0x04  // character size, high bit
  const UCSZ00: bv8 := 0x02  // character size, low bit
  const UCPOL0: bv8 := 0x01  // clock polarity (synchronous mode only)

  /** A mask that names exactly one bit of a register. */
  predicate SingleBit(m: bv8) {
    m != 0 && m & (m - 1) == 0
  }

  /** The bit sets that the driver treats as the fields of UCSR0C; the
      remaining bit is UCPOL0. */
  const ModeField: bv8 := UMSEL01 | UMSEL00
  const ParityField: bv8 := UPM01 | UPM00
  const StopField: bv8 := USBS0
  const CharSizeField: bv8 := UCSZ01 | UCSZ00

  /** Records the assumption made about the register table: every constant
      above is a single bit, and the bits of one register are pairwise
      distinct, so the UCSR0C fields are pairwise disjoint.  No proof needs
      to call it, since the constants are concrete and every encoder fact
      follows from their values directly. */
  lemma MaskLayout()
    ensures SingleBit(RXC0) && SingleBit(UDRE0) && RXC0 & UDRE0 == 0
    ensures SingleBit(RXEN0) && SingleBit(TXEN0) && SingleBit(UCSZ02)
    ensures RXEN0 & TXEN0 == 0 && RXEN0 & UCSZ02 == 0 && TXEN0 & UCSZ02 == 0
    ensures SingleBit(UMSEL01) && SingleBit(UMSEL00) && SingleBit(UPM01) && SingleBit(UPM00)
    ensures SingleBit(USBS0) && SingleBit(UCSZ01) && SingleBit(UCSZ00) && SingleBit(UCPOL0)
    ensures ModeField & ParityField == 0 && ModeField & StopField == 0 && ModeField & CharSizeField == 0
    ensures ParityField & StopField == 0 && ParityField & CharSizeField == 0
    ensures StopField & CharSizeField == 0
    ensures UCPOL0 & (ModeField | ParityField | StopField | CharSizeField) == 0
  {
  }

  /** One store to a memory-mapped register, as recorded in the log. */
  datatype RegWrite =
    | ToUBRR0(word: u16)
    | ToUCSR0A(byte: bv8)
    | ToUCSR0B(byte: bv8)
    | ToUCSR0C(byte: bv8)
    | ToUDR0(byte: bv8)

  /** The contents of the five registers. */
  datatype RegState = RegState(ubrr0: u16, ucsr0a: bv8, ucsr0b: bv8, ucsr0c: bv8, udr0: bv8)

  /** The effect of one store: the register it names takes the value,
      every other register keeps its own. */
  function Apply(st: RegState, w: RegWrite): RegState {
    match w
    case ToUBRR0(v) => st.(ubrr0 := v)
    case ToUCSR0A(v) => st.(ucsr0a := v)
    case ToUCSR0B(v) => st.(ucsr0b := v)
    case ToUCSR0C(v) => st.(ucsr0c := v)
    case ToUDR0(v) => st.(udr0 := v)
  }

  /** The effect of a sequence of stores, applied in order. */
  function Replay(st: RegState, log: seq<RegWrite>): RegState
    decreases |log|
  {
    if log == [] then st else Replay(Apply(st, log[0]), log[1..])
  }

  /** Replaying two sequences of stores one after the other is replaying
      their concatenation. */
  lemma {:induction false} ReplayAppend(st: RegState, first: seq<RegWrite>, second: seq<RegWrite>)
    ensures Replay(st, first + second) == Replay(Replay(st, first), second)
    decreases |first|
  {
    if first == [] {
      assert first + second == second;
    } else {
      assert (first + second)[0] == first[0];
      assert (first + second)[1..] == first[1..] + second;
      ReplayAppend(Apply(st, first[0]), first[1..], second);
    }
  }

  /** The register block.  Each store goes through one of the methods below,
      which stand for the driver's volatile writes; `writes` records them in
      the order in which they happen.  Loads are plain field reads. */
  class Regs {
    var UBRR0: u16  // baud-rate register
    var UCSR0A: bv8
    var UCSR0B: bv8
    var UCSR0C: bv8
    var UDR0: bv8    // data register
    ghost var writes: seq<RegWrite>

    ghost function State(): RegState
      reads this
    {
      RegState(UBRR0, UCSR0A, UCSR0B, UCSR0C, UDR0)
    }

    method StoreUBRR0(v: u16)
      modifies this
      ensures UBRR0 == v && writes == old(writes) + [ToUBRR0(v)]
      ensures UCSR0A == old(UCSR0A) && UCSR0B == old(UCSR0B) && UCSR0C == old(UCSR0C) && UDR0 == old(UDR0)
    {
      UBRR0 := v;
      writes := writes + [ToUBRR0(v)];
    }

    method StoreUCSR0A(v: bv8)
      modifies this
      ensures UCSR0A == v && writes == old(writes) + [ToUCSR0A(v)]
      ensures UBRR0 == old(UBRR0) && UCSR0B == old(UCSR0B) && UCSR0C == old(UCSR0C) && UDR0 == old(UDR0)
    {
      UCSR0A := v;
      writes := writes + [ToUCSR0A(v)];
    }

    method StoreUCSR0B(v: bv8)
      modifies this
      ensures UCSR0B == v && writes == old(writes) + [ToUCSR0B(v)]
      ensures UBRR0 == old(UBRR0) && UCSR0A == old(UCSR0A) && UCSR0C == old(UCSR0C) && UDR0 == old(UDR0)
    {
      UCSR0B := v;
      writes := writes + [ToUCSR0B(v)];
    }

    method StoreUCSR0C(v: bv8)
      modifies this
      ensures UCSR0C == v && writes == old(writes) + [ToUCSR0C(v)]
      ensures UBRR0 == old(UBRR0) && UCSR0A == old(UCSR0A) && UCSR0B == old(UCSR0B) && UDR0 == old(UDR0)
    {
      UCSR0C := v;
      writes := writes + [ToUCSR0C(v)];
    }

    method StoreUDR0(v: bv8)
      modifies this
      ensures UDR0 == v && writes == old(writes) + [ToUDR0(v)]
      ensures UBRR0 == old(UBRR0) && UCSR0A == old(UCSR0A) && UCSR0B == old(UCSR0B) && UCSR0C == old(UCSR0C)
    {
      UDR0 := v;
      writes := writes + [ToUDR0(v)];
    }
  }
}
