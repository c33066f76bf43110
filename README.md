# Custom Four-Digit Display driver, modelled in Dafny

`CustomDisplay.CustomLEDs` drives a four-digit seven-segment module from a micro:bit
over a single clock pin, with a second pin that enables the display. The protocol is
bit-banged:

- every bit is a clock pulse inside an interrupt-masked window;
- a zero holds the clock high for 4 µs and low for 8 µs, a one for 8 µs and 4 µs;
- each bit is followed by a 6 µs guard wait;
- a digit is its eight segment bits, least significant first, then a 10 µs guard wait.

The controller handles:

- the digit count, normalised to 1–4;
- a shadow buffer of the pattern last stored for each position;
- a brightness level in 0–8, which only switches the enable pin;
- the operations `init`, `showbit`, `showbitWithDP`, `showNumber`, `clear`,
  `intensity`, `off` and `on`.

The model has four modules:

- `Protocol` (`protocol.dfy`) states the wire protocol over traces of platform calls.
  - An `Event` is one platform call: a pull-mode set-up, a pin write, a busy-wait, or an
    interrupt mask or restore.
  - `Pulse`, `BitTrain`, `Transmission` and `DigitFrames` are the exact event sequences
    the driver issues for one bit, for a run of bits, for one digit and for a run of
    digits.
  - `Elapsed` and `LastWrite` read the total requested wait time and a pin's current
    level off a trace.
  - `ReadBit`, `ReadBits` and `DecodeDigit` are a reference reading of a trace. They
    are not part of the driver. They read each seven-event slot's bit off its hold times
    and rebuild the byte. `DecodeDigit` only checks that a trace has a transmission's
    length and final guard wait. The round-trip lemmas `DecodeTransmission` and
    `DecodeDigitFrames` then show that what the transmitters send carries exactly the
    byte they were given.
- `Segments` (`segments.dfy`) holds the segment table, the decimal-point variant of a
  pattern, the clamp and the four-digit decimal split.
- `CustomDisplay` (`display.dfy`) holds the class `CustomLEDs`. Its methods follow
  main.ts one for one, with loops where the source loops and with the source's default
  arguments (`bit = 0, num = 0` for the two digit transmitters, `val = 7` for
  `intensity`). Every platform call appends an event to the ghost `trace`, and each
  method's contract ties the new trace to the specification functions.
- `Scenarios` (`scenarios.dfy`) holds client programs that construct a display and
  check concrete outcomes.

The pin levels are not stored as fields: they are `LastWrite(trace, pin)`. A program
may pass the same pin as clock and enable. In that case the two "levels" are one, and
reading them off the trace keeps that honest.

Two behaviours of the code differ from what its comments and names suggest. The model
follows the code:

- `clear` transmits the pattern of digit 0 (0x3F), not the blank pattern. Its call
  `showbit(i, 10)` is commented as the blank pattern (main.ts:163), but `showbit` reduces
  10 modulo 10 before the lookup (main.ts:94). Only the buffer slot is zeroed afterwards.
- `on()` does not restore an earlier brightness after `off()`. `off()` stores 0, so
  `_brightness || 7` is 7 (main.ts:176, 193, 202).

## Model

| member | source | states |
|---|---|---|
| Segments.TableFacts | main.ts:13 | the table has 11 entries; the ten digit patterns are pairwise distinct and non-zero; no entry has bit 7 set; index 10 is 0x00 |
| Segments.BlankReducesToZero | main.ts:94 | the blank index reduced modulo 10 selects the pattern of digit 0 (0x3F), which differs from the blank entry |
| CustomDisplay.DigitCount | main.ts:28 | a requested count in [1, 4] is kept; any other count becomes 4 |
| CustomDisplay.CustomLEDs.constructor | main.ts:25-31 | the count is normalised; the buffer has that length and is all zero; the whole trace is exactly set-up, 64 zero bits, then the clear train |
| CustomDisplay.CustomLEDs.Init | main.ts:36-49 | the trace gains set-up, 64 zero-bit slots and the clear train; every buffer slot ends 0 |
| CustomDisplay.InitTraceShape | main.ts:38-48 | the first four events are the pin set-up; slot k of the next 64 is a zero pulse with its 6 µs guard; the rest is the clear train |
| CustomDisplay.InitTraceEffects | main.ts:38-48 | after init the clock pin is low and, when distinct, the enable pin high; the waits add up to 18 µs per priming bit plus 154 µs per position |
| CustomDisplay.SetupEffects | main.ts:38-41 | set-up waits for nothing, leaves the enable pin high and, when distinct, the clock low |
| CustomDisplay.CustomLEDs.EnableInterrupts | main.ts:56 | masking answers the interrupt state it replaced |
| CustomDisplay.CustomLEDs.BitZero | main.ts:54-66 | appends exactly the zero pulse and restores the interrupt state found on entry |
| CustomDisplay.CustomLEDs.BitOne | main.ts:71-82 | appends exactly the one pulse and restores the interrupt state found on entry |
| Protocol.PulseShape | main.ts:54-82 | a pulse masks interrupts, drives the clock high then low, and restores the prior state; the holds add up to 12 µs; the high hold is the longer one exactly when the bit is a one |
| Protocol.PulseEffects | main.ts:54-82 | either pulse requests 12 µs, leaves the clock low and writes no other pin |
| Protocol.BitTrainSlot | main.ts:98-106 | slot k of a bit train is the pulse for bit k followed by the 6 µs guard |
| Protocol.BitTrainEffects | main.ts:98-106 | a bit train requests 18 µs per bit, leaves the clock low when non-empty and writes no other pin |
| Protocol.TransmissionEffects | main.ts:98-107 | a digit transmission requests 18 µs per bit plus 10 µs, leaves the clock low and writes no other pin |
| Protocol.BitsRoundTrip | main.ts:99 | sending a byte least significant bit first loses nothing: rebuilding the byte from its bits gives it back |
| Protocol.ReadPulse | main.ts:54-82 | a pulse and its guard read back as the bit that was sent |
| Protocol.ReadBitTrain | main.ts:98-106 | reading a bit train back gives the bits it was built from, whatever follows it |
| Protocol.DecodeTransmission | main.ts:98-107 | a digit transmission of a byte decodes back to that byte |
| Protocol.DecodeDigitFrames | main.ts:150-153 | each 57-event slot of a digit train decodes to the byte sent in it, in order |
| Protocol.DigitFramesSlot | main.ts:150-153 | slot k of a digit train is exactly the transmission of byte k |
| Protocol.DigitFramesEffects | main.ts:150-153 | a digit train requests 154 µs per digit, leaves the clock low when non-empty and writes no other pin |
| CustomDisplay.CustomLEDs.ShowBit | main.ts:92-108 | only slot `bit % count` changes, to the pattern of `num % 10`; the trace gains that pattern's transmission, which decodes to the stored byte; the interrupt state is kept |
| CustomDisplay.CustomLEDs.ShowBitWithDP | main.ts:118-133 | only slot `bit % count` changes, to the pattern with bit 7 set; what is sent is the plain pattern's bits with bit 7 forced to one, which is the transmission of the stored byte and decodes to it |
| Segments.WithPoint | main.ts:121 | the result has bit 7 set and every other bit as in the pattern |
| Segments.DpBitsShape | main.ts:124 | the decimal-point train sends bits 0–6 of the plain pattern and a one for bit 7; for a pattern with bit 7 clear, bit 7 is the only difference |
| Segments.DpBitsAreStoredByte | main.ts:121-124 | the bits the decimal-point transmitter sends are exactly those of the byte it stores |
| Segments.Clamp | main.ts:143 | the result lies in [lo, hi], equals the input inside it and the nearer bound outside |
| Segments.Digits | main.ts:143-148 | four decimal digits, each below 10, whose value is the number clamped to [0, 9999] |
| CustomDisplay.NumberSplit | main.ts:143-148 | the four digits computed with integer division are those of Digits, already below 10 |
| CustomDisplay.FourSlots | main.ts:150-153 | writing positions 0 to 3 modulo the count leaves in each slot the pattern of the last position that wraps onto it |
| CustomDisplay.FourFrames | main.ts:150-153 | four digit transmissions in a row form the digit train of the four patterns |
| CustomDisplay.CustomLEDs.ShowNumber | main.ts:142-154 | each slot holds the digit pattern of the last position 0–3 that wraps onto it; the trace gains the four digit transmissions, thousands first |
| CustomDisplay.ClearTraceShape | main.ts:161-166 | clearing sends one digit transmission per position, each carrying 0x3F |
| CustomDisplay.NextCleared | main.ts:162-163 | one more pass of the clear loop appends one 0x3F transmission to the clear train |
| CustomDisplay.CustomLEDs.Clear | main.ts:161-166 | every slot ends 0; the trace gains exactly `count` transmissions of the pattern of digit 0 |
| CustomDisplay.CustomLEDs.Intensity | main.ts:175-185 | the brightness becomes the value clamped to [0, 8]; one enable-pin write is appended, low exactly when the clamp is 0 |
| CustomDisplay.CustomLEDs.Off | main.ts:192-194 | the brightness becomes 0 and the enable pin is driven low |
| CustomDisplay.CustomLEDs.On | main.ts:201-203 | the brightness is kept when non-zero and becomes 7 when it is 0; the enable pin is driven high |
| Scenarios.ShowTwelveThirtyFour | main.ts:142-154 | on four digits, showing 1234 stores the patterns of 1, 2, 3 and 4 |
| Scenarios.ShowOutOfRange | main.ts:143 | showing 10000 stores four 9 patterns; showing -5 stores four 0 patterns |
| Scenarios.ShowOnTwoDigits | main.ts:150-153 | on two digits, 1234 leaves the patterns of 3 and 4 because positions 0 and 1 are overwritten |
| Scenarios.ShowWithPoint | main.ts:118-121 | a requested count of 7 gives four digits; digit 15 at position 6 stores 0xED in slot 2 |
| Scenarios.DefaultArguments | main.ts:92-95 | called without arguments, `showbit` stores 0x3F and `showbitWithDP` 0xBF in slot 0; `intensity()` sets brightness 7 |
| Scenarios.DimOffOn | main.ts:175-203 | after setting brightness 3, `off` then `on` gives 7, not 3 |
| Scenarios.OffThenOn | main.ts:192-203 | `off` then `on` leaves brightness 7 and the enable pin high |
| Scenarios.ClearTwice | main.ts:161-166 | clearing twice leaves the buffer all zero and appends the same clear train twice |

## Left out

- Pins, pull modes and busy-waits are platform calls. They are modelled only as trace
  events. The model says nothing about real time, jitter, or what the hardware actually
  latches. Durations are the requested ones.
- Interrupt masking is modelled as state: the field `irq` plus a `SetInterrupts` event.
  `EnableInterrupts` assumes the platform call returns the flag it replaces, which the
  source relies on but does not show (main.ts:56, 65). The "restores the interrupt state"
  ensures of `BitZero` and `BitOne` rest on that assumption.
- The interrupt flag the platform holds at construction is not visible in the source. It
  is a constructor parameter.
- The floating-point `scale` in `intensity` (main.ts:182) is dead computation and is not
  modelled.
- Negative and non-integer inputs are not modelled. JavaScript `%` truncates toward zero,
  while Dafny's is Euclidean. A negative index would also reach unchecked buffer and
  table reads.
- CustomDisplay.CustomLEDs.ShowBit: requires `bit >= 0 && num >= 0`, because the negative
  case above is left out. The same holds for CustomDisplay.CustomLEDs.ShowBitWithDP.
  `showNumber` and `clear` always pass non-negative values.
- The source keeps the state at namespace level (main.ts:15-19), so all instances share
  it. The model has one instance with its own fields, so it does not capture one
  instance's calls changing another's state.
- The shared `_brightness` is initialised once when the namespace loads, not by the
  constructor. The model starts each display at 7, which is what a program with one
  display sees.
- The `create` factory (main.ts:215-217) only calls the constructor and is not modelled
  separately.
- The block-editor annotations (`//%` lines) are not modelled.
- The buffer starts as zero bytes, as a freshly created buffer does on the platform.
