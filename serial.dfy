/** The serial driver (src/serial.rs:72-221): the configuration constructor,
    which computes the two control-register values and writes all four
    configuration registers once, and the non-blocking operations, which
    poll one status bit of UCSR0A and then either touch the data register or
    report that they would block.  The status register is input from the
    hardware: nothing here models how the peripheral changes it. */
module SerialDriver {
  import opened Registers
  import opened Encoding
  import opened Baud

  /** The outcome of a non-blocking operation; its error type has no values,
      so "would block" is the only alternative to success. */
  datatype NbResult<T> = Ok(value: T) | WouldBlock

  /** The driver handle.  `width` stands for the word type the handle is
      instantiated with; `written` is a flag the driver sets to false and
      never changes. */
  datatype Serial = Serial(width: WordWidth, written: bool)

  /** The UCSR0B value the constructor writes: receiver and transmitter on. */
  const Control: bv8 := RXEN0 | TXEN0

  /** The UCSR0C value the constructor writes.  The width is not an
      argument: the code clears the register after merging the
      character-size flags in, then sets every bit but the two mode-select
      bits, so every configuration has the character-size field all ones
      (eight data bits with UCSZ02 clear) and the clock-polarity bit set. */
  function Framing(parity: Parity, stop: StopBits): (r: bv8)
    ensures r & ModeField == 0
    ensures ParityOf(r) == Some(parity)
    ensures StopBitsOf(r) == stop
    ensures r & CharSizeField == CharSizeField && CharSizeOf(Control, r) == Some(8)
    ensures r & UCPOL0 == UCPOL0
  {
    (!(UMSEL01 | UMSEL00) & Parity.Mask() & StopBits.Mask()) | parity.Bits() | stop.Bits()
  }

  /** The four stores of the constructor, in the order it makes them. */
  function ConfigLog(ubrr: u16, parity: Parity, stop: StopBits): (log: seq<RegWrite>)
    ensures |log| == 4
    ensures log[0].ToUBRR0? && log[1].ToUCSR0A? && log[2].ToUCSR0B? && log[3].ToUCSR0C?
    ensures log[2].byte & (RXEN0 | TXEN0) == RXEN0 | TXEN0
  {
    [ToUBRR0(ubrr), ToUCSR0A(0), ToUCSR0B(Control), ToUCSR0C(Framing(parity, stop))]
  }

  /** Serial::new_with: builds the UCSR0B and UCSR0C values step by step and
      writes UBRR0, UCSR0A, UCSR0B and UCSR0C in that order.  The new
      register values depend on the arguments only, never on what the
      registers held before, and the receiver and transmitter are always
      enabled. */
  method NewWith(hw: Regs, width: WordWidth, ubrr: u16, parity: Parity, stop: StopBits) returns (s: Serial)
    modifies hw
    ensures s == Serial(width, false)
    ensures hw.UBRR0 == ubrr && hw.UCSR0A == 0 && hw.UCSR0B == Control
    ensures hw.UCSR0C == Framing(parity, stop)
    ensures hw.UDR0 == old(hw.UDR0)
    ensures hw.writes == old(hw.writes) + ConfigLog(ubrr, parity, stop)
    ensures hw.State() == Replay(old(hw.State()), ConfigLog(ubrr, parity, stop))
  {
    var b: bv8 := 0;
    var c: bv8 := 0;

    // character size
    var (cb, cc) := width.CharSizeBits();
    b := b | cb;
    c := c | cc;
    b := b & !(UCSZ01 | UCSZ00);
    c := c & !UCSZ02;
    assert b == 0 && c == CharSizeAsWritten(width);

    // mode: this step discards everything merged into c so far
    c := c & 0;
    c := c | !(UMSEL01 | UMSEL00);

    // parity
    c := c & Parity.Mask();
    c := c | parity.Bits();

    // stop bits
    c := c & StopBits.Mask();
    c := c | stop.Bits();

    hw.StoreUBRR0(ubrr);
    hw.StoreUCSR0A(0);
    hw.StoreUCSR0B(b | RXEN0 | TXEN0);
    hw.StoreUCSR0C(c);

    s := Serial(width, false);
    ConfigureOverwrites(old(hw.State()), ubrr, parity, stop);
  }

  /** Replaying the constructor's stores from any register state sets the
      four configuration registers to values of the arguments alone and
      keeps the data register. */
  lemma ConfigureOverwrites(st: RegState, ubrr: u16, parity: Parity, stop: StopBits)
    ensures Replay(st, ConfigLog(ubrr, parity, stop))
         == RegState(ubrr, 0, Control, Framing(parity, stop), st.udr0)
  {
    var log := ConfigLog(ubrr, parity, stop);
    assert log[1..][1..] == log[2..] && log[2..][1..] == log[3..] && log[3..][1..] == [];
    var st1 := Apply(st, log[0]);
    var st2 := Apply(st1, log[1]);
    var st3 := Apply(st2, log[2]);
    assert Replay(st, log) == Replay(st1, log[1..]);
    assert Replay(st1, log[1..]) == Replay(st2, log[2..]);
    assert Replay(st2, log[2..]) == Replay(st3, log[3..]);
    assert Replay(st3, log[3..]) == Apply(st3, log[3]);
  }

  /** Configuring twice with the same arguments is configuring once,
      whatever the registers held before. */
  lemma ConfigureIdempotent(st: RegState, ubrr: u16, parity: Parity, stop: StopBits)
    ensures Replay(st, ConfigLog(ubrr, parity, stop) + ConfigLog(ubrr, parity, stop))
         == Replay(st, ConfigLog(ubrr, parity, stop))
  {
    var log := ConfigLog(ubrr, parity, stop);
    ReplayAppend(st, log, log);
    ConfigureOverwrites(st, ubrr, parity, stop);
    ConfigureOverwrites(Replay(st, log), ubrr, parity, stop);
  }

  /** Serial::new: the divisor for a 16 MHz clock, no parity, one stop bit. */
  method New(hw: Regs, width: WordWidth, baud: u64) returns (s: Serial)
    requires baud > 0 && 16_000_000 / 8 / baud >= 1
    modifies hw
    ensures s == Serial(width, false)
    ensures hw.UBRR0 == UbrrWith(16_000_000, baud) && hw.UCSR0A == 0 && hw.UCSR0B == Control
    ensures hw.UCSR0C == Framing(Disabled, OneBit) == UCSZ01 | UCSZ00 | UCPOL0
    ensures hw.UDR0 == old(hw.UDR0)
    ensures hw.writes == old(hw.writes) + ConfigLog(UbrrWith(16_000_000, baud), Disabled, OneBit)
  {
    s := NewWith(hw, width, UbrrWith(16_000_000, baud), Disabled, OneBit);
  }

  /** A client that configures twice with the same arguments ends with the
      registers a single configuration leaves. */
  method ConfigureTwice(hw: Regs, width: WordWidth, ubrr: u16, parity: Parity, stop: StopBits)
    returns (first: Serial, second: Serial)
    modifies hw
    ensures first == second == Serial(width, false)
    ensures hw.writes == old(hw.writes) + ConfigLog(ubrr, parity, stop) + ConfigLog(ubrr, parity, stop)
    ensures hw.State() == Replay(old(hw.State()), ConfigLog(ubrr, parity, stop))
  {
    first := NewWith(hw, width, ubrr, parity, stop);
    second := NewWith(hw, width, ubrr, parity, stop);
    ReplayAppend(old(hw.State()), ConfigLog(ubrr, parity, stop), ConfigLog(ubrr, parity, stop));
    ConfigureIdempotent(old(hw.State()), ubrr, parity, stop);
  }

  /** ready_to_transmit: the data register is empty. */
  method ReadyToTransmit(hw: Regs) returns (r: bool)
    ensures r <==> hw.UCSR0A & UDRE0 != 0
  {
    r := hw.UCSR0A & UDRE0 != 0;
  }

  /** ready_to_receive: a received byte is waiting. */
  method ReadyToReceive(hw: Regs) returns (r: bool)
    ensures r <==> hw.UCSR0A & RXC0 != 0
  {
    r := hw.UCSR0A & RXC0 != 0;
  }

  /** do_write: one store of the word, as a byte, to the data register. */
  method DoWrite(hw: Regs, word: bv8)
    modifies hw
    ensures hw.UDR0 == word && hw.writes == old(hw.writes) + [ToUDR0(word)]
    ensures hw.UBRR0 == old(hw.UBRR0) && hw.UCSR0A == old(hw.UCSR0A)
    ensures hw.UCSR0B == old(hw.UCSR0B) && hw.UCSR0C == old(hw.UCSR0C)
  {
    hw.StoreUDR0(word);
  }

  /** do_read: one load of the data register. */
  method DoRead(hw: Regs) returns (r: bv8)
    ensures r == hw.UDR0
  {
    r := hw.UDR0;
  }

  /** Write::write: stores the word only when the data register is empty;
      otherwise nothing at all changes. */
  method Write(hw: Regs, s: Serial, word: bv8) returns (r: NbResult<()>)
    requires s.width.Fits(word)
    modifies hw
    ensures r == Ok(()) <==> old(hw.UCSR0A) & UDRE0 != 0
    ensures r == Ok(()) || r == WouldBlock
    ensures r == Ok(()) ==> hw.UDR0 == word && hw.writes == old(hw.writes) + [ToUDR0(word)]
    ensures r == WouldBlock ==> hw.UDR0 == old(hw.UDR0) && hw.writes == old(hw.writes)
    ensures hw.UBRR0 == old(hw.UBRR0) && hw.UCSR0A == old(hw.UCSR0A)
    ensures hw.UCSR0B == old(hw.UCSR0B) && hw.UCSR0C == old(hw.UCSR0C)
  {
    var ready := ReadyToTransmit(hw);
    if ready {
      DoWrite(hw, word);
      r := Ok(());
    } else {
      r := WouldBlock;
    }
  }

  /** Write::flush: there is no buffer, so it always succeeds at once. */
  method Flush(s: Serial) returns (r: NbResult<()>)
    ensures r == Ok(())
  {
    r := Ok(());
  }

  /** Read::read: the received byte when one is waiting, "would block"
      otherwise; no register is written either way.  Only the byte-wide
      handle has a read, since u8 is the one word type built from a byte. */
  method Read(hw: Regs, s: Serial) returns (r: NbResult<bv8>)
    requires s.width == U8
    ensures r == Ok(hw.UDR0) <==> hw.UCSR0A & RXC0 != 0
    ensures r == Ok(hw.UDR0) || r == WouldBlock
  {
    var ready := ReadyToReceive(hw);
    if ready {
      var byte := DoRead(hw);
      r := Ok(byte);
    } else {
      r := WouldBlock;
    }
  }

  /** The UCSR0C accumulator after the character-size step as written: the
      width's flags are or-ed in first and only then masked, and the mask is
      UCSR0B's UCSZ02, whose bit position (0x04) is UCSZ01's in UCSR0C. */
  function CharSizeAsWritten(width: WordWidth): (r: bv8)
    ensures r == IntendedCharSize(width) & !UCSZ01
  {
    (0 | width.CharSizeBits().1) & !UCSZ02
  }

  /** The character-size step evidently meant: UCSR0C's own character-size
      field masked first, then the width's flags or-ed in.  The field then
      holds the width's code and nothing else is set. */
  function IntendedCharSize(width: WordWidth): (r: bv8)
    ensures r & !CharSizeField == 0
    ensures CharSizeOf(Control, r) == Some(width.DataBits())
  {
    SetField(0, !CharSizeField, width.CharSizeBits().1)
  }

  /** The character-size step as written drops UCSZ01: seven-bit words come
      out as five bits and eight-bit words as six, and only five- and six-bit
      words keep their width.  This holds still when the later mode step
      clears only the mode-select field, so mending that step alone does not
      keep the width. */
  lemma CharSizeMaskDropsHighBit(width: WordWidth, parity: Parity, stop: StopBits)
    ensures CharSizeOf(Control, CharSizeAsWritten(width))
         == Some(match width case U7 => 5 case U8 => 6 case _ => width.DataBits())
    ensures CharSizeAsWritten(width) == IntendedCharSize(width) <==> width == U5 || width == U6
    ensures var c := SetField(SetField(SetField(CharSizeAsWritten(width), !ModeField, 0), Parity.Mask(), parity.Bits()), StopBits.Mask(), stop.Bits());
            width == U7 || width == U8 ==> CharSizeOf(Control, c) != Some(width.DataBits())
  {
  }

  /** The frame format the constructor evidently means to write.  It takes
      two corrections to the code: the character-size step masks UCSR0C's
      own field before or-ing in the width's flags (IntendedCharSize), and
      the mode step clears only the mode-select field, for asynchronous
      operation, instead of clearing the accumulator and setting every
      other bit.  The character-size field then carries the word width,
      and no bit outside the four fields is set. */
  function IntendedFraming(width: WordWidth, parity: Parity, stop: StopBits): (r: bv8)
    ensures r & ModeField == 0
    ensures ParityOf(r) == Some(parity)
    ensures StopBitsOf(r) == stop
    ensures CharSizeOf(Control, r) == Some(width.DataBits())
    ensures r & !(ModeField | ParityField | StopField | CharSizeField) == 0
  {
    var c := IntendedCharSize(width);
    var c := SetField(c, !ModeField, 0);
    var c := SetField(c, Parity.Mask(), parity.Bits());
    SetField(c, StopBits.Mask(), stop.Bits())
  }

  /** The constructor as written ignores the word width: only the byte-wide
      configuration agrees with the intended one (apart from the
      clock-polarity bit), and with five-bit words it writes 0x07 where
      0x00 is meant. */
  lemma FramingIgnoresWidth(width: WordWidth, parity: Parity, stop: StopBits)
    ensures CharSizeOf(Control, Framing(parity, stop)) == Some(8)
    ensures Framing(parity, stop) == IntendedFraming(U8, parity, stop) | UCPOL0
    ensures width != U8 ==> CharSizeOf(Control, Framing(parity, stop)) != CharSizeOf(Control, IntendedFraming(width, parity, stop))
    ensures Framing(Disabled, OneBit) == 0x07 && IntendedFraming(U5, Disabled, OneBit) == 0x00
  {
  }
}
