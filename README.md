# UART driver of arduino_hal, modelled in Dafny

This project models the serial (USART0) driver of the `arduino_hal` crate for the
ATmega328P. It has four parts.

- **Bitfield encoders** (module `Encoding`). A parity mode, a stop-bit choice or
  a word width becomes the bits it sets in a control register. Each field also
  has a mask that clears it. Each encoder is paired with how the hardware reads
  that field back. The model proves that every encoding reads back as the choice
  it came from, and that the reserved parity pattern is never produced.
- **The mask-then-or update** (`Encoding.SetField`). It sets one field exactly
  and leaves every other bit alone. Applying it twice is the same as applying it
  once. Updates of disjoint fields commute.
- **The baud-rate divisor** (module `Baud`). `UbrrWith` computes the divisor with
  truncating 64-bit arithmetic and casts it to 16 bits. It is proved equal to
  the data sheet's 16-sample divisor rounded to the nearest integer, modulo 2^16.
- **The driver** (module `SerialDriver`). The register block is a class `Regs`
  (module `Registers`) with one field per register. A ghost log records every
  register store in order. `Replay` gives the register state that a sequence of
  stores produces. `NewWith` and `New` build and write the
  configuration. `Write`, `Read` and `Flush` are the non-blocking operations.
  `UCSR0A` is treated as input from the hardware.

The mask constants come from the crate's register table, which is not part of
this model. They are taken to be the ATmega328P's single-bit USART0 masks.
`Registers.MaskLayout` proves that each is a single bit and that the UCSR0C
fields are pairwise disjoint.

The model follows the code as written, including where the code defeats its
own evident purpose. The `CharSizeFlag` impls (src/serial.rs:78-108) and the
character-size step of `new_with` (src/serial.rs:119-124) exist only to put
the word width into UCSR0C. But line 127 then clears the UCSR0C accumulator,
and line 128 sets every bit except the two mode-select bits. So UCSR0C is
`0x07 | parity | stop` for every word type. It always selects eight data bits
and sets the clock-polarity bit UCPOL0. See "## Findings".

Lines 123-124 mask `b` with UCSR0C's character-size bits and `c` with UCSR0B's
UCSZ02. They also mask after or-ing the flags in, not before. UCSZ02 has the bit
position of UCSZ01 (0x04), so line 124 clears UCSZ01 from `c`. The written
UCSR0B is unaffected, because the UCSR0B part of every width's flags is 0. The
written UCSR0C is unaffected only because line 127 clears `c` afterwards. With
the mode step (lines 127-128) mended alone, seven-bit words would come out as five bits and
eight-bit words as six. This is the second row of "## Findings".

## Model

| member | source | states |
|---|---|---|
| `Registers.MaskLayout` | src/serial.rs:12 | records the assumption about the unseen register table: the imported masks are single bits; the mode, parity, stop and character-size fields of UCSR0C, and UCPOL0, are pairwise disjoint; the UCSR0A and UCSR0B bits are distinct |
| `Registers.ReplayAppend` | src/serial.rs:139-144 | replaying the register stores of two consecutive sequences is replaying their concatenation, so the register state after a series of stores is determined by the stores in order |
| `Registers.Regs.StoreUBRR0` | src/serial.rs:140 | the volatile store sets UBRR0 only and appends it to the store log |
| `Registers.Regs.StoreUCSR0A` | src/serial.rs:141 | the volatile store sets UCSR0A only and appends it to the store log |
| `Registers.Regs.StoreUCSR0B` | src/serial.rs:142 | the volatile store sets UCSR0B only and appends it to the store log |
| `Registers.Regs.StoreUCSR0C` | src/serial.rs:143 | the volatile store sets UCSR0C only and appends it to the store log |
| `Registers.Regs.StoreUDR0` | src/serial.rs:175 | the volatile store sets UDR0 only and appends it to the store log |
| `Encoding.Parity.Bits` | src/serial.rs:33-42 | the encoding lies inside the parity field; it is never the reserved pattern UPM00 alone; and the hardware reads it back as the same mode (Disabled 00, Even 10, Odd 11) |
| `Encoding.Parity.Mask` | src/serial.rs:45-47 | the mask clears exactly the two parity bits and keeps all other bits |
| `Encoding.StopBits.Bits` | src/serial.rs:57-64 | the encoding lies inside the stop-bit field, and the hardware reads it back as the same choice (0 is one bit, USBS0 is two) |
| `Encoding.StopBits.Mask` | src/serial.rs:67-69 | the mask clears exactly USBS0 and keeps all other bits |
| `Encoding.WordWidth.DataBits` | src/serial.rs:8 | the word types u5, u6, u7 and u8 carry 5 to 8 data bits |
| `Encoding.WordWidth.CharSizeBits` | src/serial.rs:78-108 | the UCSR0B part is 0 for every width; the UCSR0C part lies inside the UCSZ01/UCSZ00 field; and the hardware reads the pair as that width's number of data bits |
| `Encoding.SetField` | src/serial.rs:131-136 | when the bits lie inside the field, the result holds exactly those bits in the field and the old value outside it |
| `Encoding.SetFieldIdempotent` | src/serial.rs:131-136 | applying the same mask-then-or update twice is the same as applying it once |
| `Encoding.SetFieldOverwrites` | src/serial.rs:131-136 | a second update of a field overrides the first |
| `Encoding.SetFieldCommutes` | src/serial.rs:130-136 | updates of two disjoint fields can be applied in either order |
| `Encoding.FramingFieldsRoundTrip` | src/serial.rs:130-136 | starting from any register value, merging parity and then stop bits makes the hardware read back exactly that parity and that stop-bit choice |
| `Encoding.EncodingsDistinct` | src/serial.rs:33-107 | the reserved parity pattern decodes to no mode; distinct parity modes, stop-bit choices and word widths have distinct encodings |
| `Baud.UbrrWith` | src/serial.rs:17-20 | it needs a nonzero baud rate and an 8-sample quotient of at least 1; the result is the nearest 16-sample divisor `round(f/(16*baud)) - 1`, modulo 2^16 |
| `Baud.HalfRoundedDivisor` | src/serial.rs:19 | halving the truncated 8-sample quotient, less one, equals rounding the 16-sample quotient to nearest (halves up), less one |
| `Baud.UbrrWithExamples` | src/serial.rs:18-19 | a 16 MHz clock gives 103 at 9600 baud and 8 at 115200 baud |
| `Baud.UbrrWithExact` | src/serial.rs:19 | when the divisor is below 2^16, the cast to u16 loses nothing |
| `SerialDriver.Framing` | src/serial.rs:126-136 | the UCSR0C value written has both mode-select bits clear (asynchronous), reads back the chosen parity and stop bits, and always selects eight data bits with UCPOL0 set |
| `SerialDriver.ConfigLog` | src/serial.rs:139-144 | the constructor makes four stores, to UBRR0, UCSR0A, UCSR0B and UCSR0C in that order; the UCSR0B value enables the receiver and the transmitter |
| `SerialDriver.CharSizeAsWritten` | src/serial.rs:120-124 | the UCSR0C accumulator after the character-size step as written is the corrected step's value with UCSZ01 cleared |
| `SerialDriver.NewWith` | src/serial.rs:115-150 | UBRR0 is the given divisor, UCSR0A is 0, UCSR0B enables the receiver and transmitter, and UCSR0C is `Framing(parity, stop)`, whatever the word type and the old register contents; UDR0 is untouched; exactly four stores happen, in the order UBRR0, UCSR0A, UCSR0B, UCSR0C, and the new register state is the replay of those stores; the handle has `written == false` |
| `SerialDriver.ConfigureOverwrites` | src/serial.rs:139-144 | replaying the constructor's four stores from any register state gives a state that depends only on the arguments and the old data register |
| `SerialDriver.ConfigureIdempotent` | src/serial.rs:139-144 | replaying the constructor's stores twice from any state gives the same registers as replaying them once |
| `SerialDriver.New` | src/serial.rs:152-158 | the same as `NewWith` with the 16 MHz divisor, parity disabled and one stop bit, so UCSR0C is `0x07` |
| `SerialDriver.ConfigureTwice` | src/serial.rs:115-150 | a client that calls the constructor twice with the same arguments records eight stores, yet ends with the registers a single call leaves |
| `SerialDriver.ReadyToTransmit` | src/serial.rs:162-165 | true exactly when UDRE0 is set in UCSR0A |
| `SerialDriver.ReadyToReceive` | src/serial.rs:167-170 | true exactly when RXC0 is set in UCSR0A |
| `SerialDriver.DoWrite` | src/serial.rs:172-176 | one store of the word to UDR0, and nothing else changes |
| `SerialDriver.DoRead` | src/serial.rs:178-181 | returns the content of UDR0 |
| `SerialDriver.Write` | src/serial.rs:188-198 | returns Ok exactly when UDRE0 was set, and then UDR0 holds the word after one store; otherwise it returns WouldBlock and no register and no log entry changes; the other registers never change |
| `SerialDriver.Flush` | src/serial.rs:200-203 | always Ok, and nothing changes |
| `SerialDriver.Read` | src/serial.rs:212-219 | returns Ok with the byte in UDR0 exactly when RXC0 is set, and WouldBlock otherwise; it writes no register |
| `SerialDriver.IntendedCharSize` | src/serial.rs:119-124 | the corrected character-size step (mask UCSR0C's own field, then or in the width's flags) leaves exactly the width's code in the field, read back as the word type's number of data bits |
| `SerialDriver.CharSizeMaskDropsHighBit` | src/serial.rs:120-124 | the step as written reads back 5 bits for u7 and 6 for u8, and agrees with the corrected step only for u5 and u6; after a mode step that clears only the mode-select field, u7 and u8 still lose their width |
| `SerialDriver.IntendedFraming` | src/serial.rs:119-136 | the UCSR0C value with both corrections (the character-size step and the mode step): asynchronous mode, the chosen parity and stop bits, the word type's number of data bits, and no other bit set |
| `SerialDriver.FramingIgnoresWidth` | src/serial.rs:119-136 | the value as written always selects eight data bits; it equals the corrected u8 value plus UCPOL0; for every other width the data-bit count differs from the intended one; u5 with no parity and one stop bit gives 0x07 where 0x00 is meant |

## Left out

- Volatile memory access, `unsafe`, and the register addresses. The registers are fields of `Regs`, and the masks are assumed constants.
- The `embedded_hal` traits, `nb::Result`, the uninhabited error type, the empty `SerialError` enum and `PhantomData`. The result type is `NbResult`, and the word type is the `width` field of the handle.
- Hardware-side effects the code does not perform: reading UDR0 clearing RXC0, UDRE0 dropping after a store, and the peripheral changing UCSR0A in general. UCSR0A is read as input.
- SerialDriver.Write: the word is a byte that `width.Fits` bounds, standing for `T::into`; the conversion from u5, u6 and u7 to u8 is not modelled separately.
- SerialDriver.Read: restricted to the u8 handle, since among the four word types only u8 converts from u8; the conversion `T::from` is the identity there.
- Baud.UbrrWith: the requires excludes a zero baud rate (a panic) and an 8-sample quotient of 0. In that case the u64 subtraction panics in a debug build and wraps in a release build, and the wrapped value is not modelled.
- SerialDriver.New: inherits the requires of `Baud.UbrrWith`, which excludes every baud rate above 2 000 000 for the 16 MHz clock. A release build accepts those rates and writes 0xFFFF; this is not modelled.
- Interrupt-driven operation (a TODO in the source) and concurrent access.
- src/spi.rs (one enum and imports, no logic), src/lib.rs (crate attributes and module declarations), and the timer and register modules, which are not part of this model.

## Findings

| source | as written | input that shows it | evidently intended | confidence | as-written member | corrected member |
|---|---|---|---|---|---|---|
| src/serial.rs:126-128 | after the character size has been merged into the UCSR0C accumulator, the mode step clears the accumulator and sets every bit except the mode-select bits, so the width is lost and UCSR0C always selects eight data bits with UCPOL0 set | `Serial::<u5>::new_with(103, Parity::Disabled, StopBits::OneBit)` writes UCSR0C = 0x07 | clear only the mode-select field (mask it, then or in 0), so the accumulated character size survives; for u7 and u8 this also needs the correction of the next row; UCSR0C = 0x00 for five data bits | not executed; high | `SerialDriver.FramingIgnoresWidth` | `SerialDriver.IntendedFraming` |
| src/serial.rs:120-124 | the width's flags are or-ed into the UCSR0C accumulator before the mask, and the mask is UCSR0B's UCSZ02 (0x04), which in UCSR0C is UCSZ01, so the step clears UCSZ01 | with the mode step mended, `Serial::<u8>` would select six data bits and `Serial::<u7>` five | mask UCSR0C's own character-size field first, then or in the width's flags, so the field holds the width's code | not executed; high | `SerialDriver.CharSizeMaskDropsHighBit` | `SerialDriver.IntendedCharSize` |

`SerialDriver.NewWith` models the constructor as written. `IntendedCharSize`
and `IntendedFraming` give the corrected values, with their intended properties
proved. `IntendedFraming` is built on `IntendedCharSize`, so it carries both
corrections. They are stated beside `NewWith` for comparison.
