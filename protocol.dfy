/** The wire protocol of the display module, stated over traces of platform calls.

    Every call the driver makes into the platform (pin pull configuration, a pin write,
    a busy-wait, masking or restoring interrupts) is one Event; a run of the driver is
    the sequence of events it issues. The functions here build the exact event sequences
    the driver issues for one bit, for a train of bits and for a train of digits. */
module Protocol {

  datatype Option<T> = None | Some(value: T)

  /** A pin identifier as the board enumerates it. */
  type DigitalPin = int

  datatype Level = Low | High

  datatype Event =
    | SetPullNone(pin: DigitalPin)         // pull-mode configuration of a pin: no pull
    | Write(pin: DigitalPin, level: Level)  // digital write of a pin
    | Wait(us: nat)                         // busy-wait of the requested microseconds
    | SetInterrupts(enabled: bool)          // interrupt masking (false) or restoring

  /** Hold times of a pulse: a zero is short-high/long-low, a one long-high/short-low. */
  const ShortHoldUs: nat := 4
  const LongHoldUs: nat := 8
  /** Guard time after every bit, outside the masked window. */
  const BitGuardUs: nat := 6
  /** Guard time after the eighth bit of a digit. */
  const DigitGuardUs: nat := 10

  /** Number of events that one bit and its guard wait occupy. */
  const BitSlot: nat := 7

  /** Total busy-wait time a trace requests. */
  function Elapsed(t: seq<Event>): nat
  {
    if t == [] then 0
    else Elapsed(t[..|t| - 1]) + (if t[|t| - 1].Wait? then t[|t| - 1].us else 0)
  }

  /** The level most recently written to `pin`, if the trace writes it at all. */
  function LastWrite(t: seq<Event>, pin: DigitalPin): Option<Level>
  {
    if t == [] then None
    else if t[|t| - 1].Write? && t[|t| - 1].pin == pin then Some(t[|t| - 1].level)
    else LastWrite(t[..|t| - 1], pin)
  }

  lemma {:induction false} ElapsedAppend(a: seq<Event>, b: seq<Event>)
    ensures Elapsed(a + b) == Elapsed(a) + Elapsed(b)
  {
    if b == [] {
      assert a + b == a;
    } else {
      assert (a + b)[..|a + b| - 1] == a + b[..|b| - 1];
      ElapsedAppend(a, b[..|b| - 1]);
    }
  }

  /** A later write to a pin hides every earlier one. */
  lemma {:induction false} LastWriteAppend(a: seq<Event>, b: seq<Event>, pin: DigitalPin)
    ensures LastWrite(a + b, pin) == if LastWrite(b, pin).Some? then LastWrite(b, pin) else LastWrite(a, pin)
  {
    if b == [] {
      assert a + b == a;
    } else {
      assert (a + b)[..|a + b| - 1] == a + b[..|b| - 1];
      LastWriteAppend(a, b[..|b| - 1], pin);
    }
  }

  /** One bit on the clock pin, enclosed in an interrupt-masked window that ends by
      restoring the interrupt state `prev` found on entry. */
  function Pulse(one: bool, clk: DigitalPin, prev: bool): seq<Event>
  {
    var (high, low) := if one then (LongHoldUs, ShortHoldUs) else (ShortHoldUs, LongHoldUs);
    [SetInterrupts(false), Write(clk, High), Wait(high), Write(clk, Low), Wait(low), SetInterrupts(prev)]
  }

  /** A pulse drives the clock pin high, then low, inside the masked window; the two
      holds always add up to 12 microseconds, and the high one is the longer exactly
      when the bit is a one. */
  lemma PulseShape(one: bool, clk: DigitalPin, prev: bool)
    ensures var r := Pulse(one, clk, prev);
      && |r| == 6
      && r[0] == SetInterrupts(false) && r[5] == SetInterrupts(prev)
      && r[1] == Write(clk, High) && r[3] == Write(clk, Low)
      && r[2].Wait? && r[4].Wait? && r[2].us + r[4].us == ShortHoldUs + LongHoldUs
      && (one <==> r[2].us > r[4].us)
  {
  }

  /** Both bit values take the same 12 microseconds, end with the clock pin low and
      write no other pin. */
  lemma PulseEffects(one: bool, clk: DigitalPin, prev: bool)
    ensures Elapsed(Pulse(one, clk, prev)) == ShortHoldUs + LongHoldUs
    ensures LastWrite(Pulse(one, clk, prev), clk) == Some(Low)
    ensures forall pin :: pin != clk ==> LastWrite(Pulse(one, clk, prev), pin) == None
  {
    var r := Pulse(one, clk, prev);
    assert r[..1][..0] == [] && r[..2][..1] == r[..1] && r[..3][..2] == r[..2];
    assert r[..4][..3] == r[..3] && r[..5][..4] == r[..4] && r[..5] == r[..|r| - 1];
    assert Elapsed(r[..1]) == 0;
    assert !r[..2][1].Wait?;
    assert Elapsed(r[..2]) == 0;
    assert Elapsed(r[..3]) == r[2].us;
    assert Elapsed(r[..5]) == r[2].us + r[4].us;
    assert LastWrite(r[..4], clk) == Some(Low);
    forall pin | pin != clk
      ensures LastWrite(r, pin) == None
    {
      assert LastWrite(r[..1], pin) == None;
      assert LastWrite(r[..2], pin) == None;
      assert LastWrite(r[..4], pin) == None;
    }
  }

  /** Each bit of `bits`, first to last, as a pulse followed by the bit guard wait. */
  function BitTrain(bits: seq<bool>, clk: DigitalPin, prev: bool): (r: seq<Event>)
    ensures |r| == BitSlot * |bits|
  {
    if bits == [] then []
    else BitTrain(bits[..|bits| - 1], clk, prev) + Pulse(bits[|bits| - 1], clk, prev) + [Wait(BitGuardUs)]
  }

  /** Extending a bit train by one bit appends that bit's pulse and guard wait. */
  lemma BitTrainSnoc(bits: seq<bool>, b: bool, clk: DigitalPin, prev: bool)
    ensures BitTrain(bits + [b], clk, prev) == BitTrain(bits, clk, prev) + Pulse(b, clk, prev) + [Wait(BitGuardUs)]
  {
    assert (bits + [b])[..|bits|] == bits;
  }

  /** One loop step of a bit transmitter: a trace holding the first i bits of `bits`,
      extended by bit i's pulse and guard wait, holds the first i + 1. */
  lemma NextBit(start: seq<Event>, before: seq<Event>, after: seq<Event>, bits: seq<bool>, i: nat, clk: DigitalPin, prev: bool)
    requires i < |bits|
    requires before == start + BitTrain(bits[..i], clk, prev)
    requires after == before + Pulse(bits[i], clk, prev) + [Wait(BitGuardUs)]
    ensures after == start + BitTrain(bits[..i + 1], clk, prev)
  {
    assert bits[..i + 1] == bits[..i] + [bits[i]];
    BitTrainSnoc(bits[..i], bits[i], clk, prev);
  }

  /** The last step of a digit transmitter: all eight bits sent, then the digit guard. */
  lemma LastBit(start: seq<Event>, before: seq<Event>, after: seq<Event>, bits: seq<bool>, clk: DigitalPin, prev: bool)
    requires |bits| == 8
    requires before == start + BitTrain(bits[..8], clk, prev)
    requires after == before + [Wait(DigitGuardUs)]
    ensures after == start + Transmission(bits, clk, prev)
  {
    assert bits[..8] == bits;
  }

  /** Slot k of a bit train is exactly the pulse for bits[k] and its guard wait. */
  lemma {:induction false} BitTrainSlot(bits: seq<bool>, clk: DigitalPin, prev: bool, k: nat)
    requires k < |bits|
    ensures BitTrain(bits, clk, prev)[BitSlot * k..BitSlot * (k + 1)] == Pulse(bits[k], clk, prev) + [Wait(BitGuardUs)]
  {
    var init := bits[..|bits| - 1];
    var head := BitTrain(init, clk, prev);
    var t := Pulse(bits[|bits| - 1], clk, prev) + [Wait(BitGuardUs)];
    assert BitTrain(bits, clk, prev) == head + t;
    if k < |bits| - 1 {
      BitTrainSlot(init, clk, prev, k);
      assert init[k] == bits[k];
      SliceOfAppend(head, t, BitSlot * k, BitSlot * (k + 1));
    } else {
      SliceOfAppend(head, t, |head|, |head| + |t|);
    }
  }

  lemma {:induction false} BitTrainEffects(bits: seq<bool>, clk: DigitalPin, prev: bool)
    ensures Elapsed(BitTrain(bits, clk, prev)) == (ShortHoldUs + LongHoldUs + BitGuardUs) * |bits|
    ensures |bits| > 0 ==> LastWrite(BitTrain(bits, clk, prev), clk) == Some(Low)
    ensures forall pin :: pin != clk ==> LastWrite(BitTrain(bits, clk, prev), pin) == None
  {
    if bits != [] {
      var init := bits[..|bits| - 1];
      var head := BitTrain(init, clk, prev);
      var p := Pulse(bits[|bits| - 1], clk, prev);
      BitTrainEffects(init, clk, prev);
      PulseEffects(bits[|bits| - 1], clk, prev);
      ElapsedAppend(head, p);
      ElapsedAppend(head + p, [Wait(BitGuardUs)]);
      LastWriteAppend(head, p, clk);
      LastWriteAppend(head + p, [Wait(BitGuardUs)], clk);
      forall pin | pin != clk
        ensures LastWrite(BitTrain(bits, clk, prev), pin) == None
      {
        LastWriteAppend(head, p, pin);
        LastWriteAppend(head + p, [Wait(BitGuardUs)], pin);
      }
    }
  }

  /** One digit on the wire: its bit train, then the digit guard wait. */
  function Transmission(bits: seq<bool>, clk: DigitalPin, prev: bool): (r: seq<Event>)
    ensures |r| == BitSlot * |bits| + 1
  {
    BitTrain(bits, clk, prev) + [Wait(DigitGuardUs)]
  }

  lemma TransmissionEffects(bits: seq<bool>, clk: DigitalPin, prev: bool)
    ensures Elapsed(Transmission(bits, clk, prev)) == (ShortHoldUs + LongHoldUs + BitGuardUs) * |bits| + DigitGuardUs
    ensures |bits| > 0 ==> LastWrite(Transmission(bits, clk, prev), clk) == Some(Low)
    ensures forall pin :: pin != clk ==> LastWrite(Transmission(bits, clk, prev), pin) == None
  {
    var t := BitTrain(bits, clk, prev);
    BitTrainEffects(bits, clk, prev);
    ElapsedAppend(t, [Wait(DigitGuardUs)]);
    forall pin
      ensures LastWrite(Transmission(bits, clk, prev), pin) == LastWrite(t, pin)
    {
      LastWriteAppend(t, [Wait(DigitGuardUs)], pin);
    }
  }

  /** Bit i of a byte, counting from the least significant bit. */
  function BitOf(p: bv8, i: nat): bool
    requires i < 8
  {
    (p >> i) & 1 == 1
  }

  /** A byte as the driver sends it: least significant bit first. */
  function Bits(p: bv8): (r: seq<bool>)
    ensures |r| == 8
  {
    seq(8, i requires 0 <= i < 8 => BitOf(p, i))
  }

  /** The byte whose bits, least significant first, are `bits`. */
  function FromBits(bits: seq<bool>): bv8
    requires |bits| <= 8
  {
    if bits == [] then 0
    else (FromBits(bits[1..]) << 1) | (if bits[0] then 1 else 0)
  }

  lemma ShiftStep(p: bv8, k: nat)
    requires k < 8
    ensures ((p >> (k + 1)) << 1) | (if BitOf(p, k) then 1 else 0) == p >> k
  {
  }

  lemma {:induction false} FromBitsSuffix(p: bv8, k: nat)
    requires k <= 8
    ensures FromBits(Bits(p)[k..]) == p >> k
    decreases 8 - k
  {
    if k < 8 {
      FromBitsSuffix(p, k + 1);
      assert Bits(p)[k..][1..] == Bits(p)[k + 1..];
      ShiftStep(p, k);
    }
  }

  /** Least-significant-first serialisation of a byte loses nothing. */
  lemma BitsRoundTrip(p: bv8)
    ensures FromBits(Bits(p)) == p
  {
    FromBitsSuffix(p, 0);
    assert Bits(p)[0..] == Bits(p);
  }

  /** Number of events that one digit transmission occupies: eight bit slots and the digit guard wait. */
  const DigitSlot: nat := 57

  /** The transmissions of the bytes `ps`, first to last. */
  function DigitFrames(ps: seq<bv8>, clk: DigitalPin, prev: bool): (r: seq<Event>)
    ensures |r| == DigitSlot * |ps|
  {
    if ps == [] then []
    else DigitFrames(ps[..|ps| - 1], clk, prev) + Transmission(Bits(ps[|ps| - 1]), clk, prev)
  }

  /** Extending a digit train by one byte appends that byte's transmission. */
  lemma DigitFramesSnoc(ps: seq<bv8>, p: bv8, clk: DigitalPin, prev: bool)
    ensures DigitFrames(ps + [p], clk, prev) == DigitFrames(ps, clk, prev) + Transmission(Bits(p), clk, prev)
  {
    assert (ps + [p])[..|ps|] == ps;
  }

  /** Slot k of a digit train is exactly the transmission of ps[k]. */
  lemma {:induction false} DigitFramesSlot(ps: seq<bv8>, clk: DigitalPin, prev: bool, k: nat)
    requires k < |ps|
    ensures DigitFrames(ps, clk, prev)[DigitSlot * k..DigitSlot * (k + 1)] == Transmission(Bits(ps[k]), clk, prev)
  {
    var init := ps[..|ps| - 1];
    var head := DigitFrames(init, clk, prev);
    var t := Transmission(Bits(ps[|ps| - 1]), clk, prev);
    if k < |ps| - 1 {
      DigitFramesSlot(init, clk, prev, k);
      assert init[k] == ps[k];
      SliceOfAppend(head, t, DigitSlot * k, DigitSlot * (k + 1));
    } else {
      SliceOfAppend(head, t, |head|, |head| + |t|);
    }
  }

  lemma SliceOfAppend<T>(a: seq<T>, b: seq<T>, i: nat, j: nat)
    requires i <= j <= |a| || i == |a| <= j == |a| + |b|
    ensures i <= j <= |a| ==> (a + b)[i..j] == a[i..j]
    ensures i == |a| && j == |a| + |b| ==> (a + b)[i..j] == b
  {
  }

  lemma {:induction false} DigitFramesEffects(ps: seq<bv8>, clk: DigitalPin, prev: bool)
    ensures Elapsed(DigitFrames(ps, clk, prev)) == ((ShortHoldUs + LongHoldUs + BitGuardUs) * 8 + DigitGuardUs) * |ps|
    ensures |ps| > 0 ==> LastWrite(DigitFrames(ps, clk, prev), clk) == Some(Low)
    ensures forall pin :: pin != clk ==> LastWrite(DigitFrames(ps, clk, prev), pin) == None
  {
    if ps != [] {
      var init := ps[..|ps| - 1];
      var head := DigitFrames(init, clk, prev);
      var t := Transmission(Bits(ps[|ps| - 1]), clk, prev);
      DigitFramesEffects(init, clk, prev);
      TransmissionEffects(Bits(ps[|ps| - 1]), clk, prev);
      ElapsedAppend(head, t);
      forall pin
        ensures LastWrite(DigitFrames(ps, clk, prev), pin) == if LastWrite(t, pin).Some? then LastWrite(t, pin) else LastWrite(head, pin)
      {
        LastWriteAppend(head, t, pin);
      }
    }
  }

  // A reference reading of a trace, used to show that a transmission carries its byte.

  /** The bit a seven-event slot carries, read off its hold times: a one when the
      clock is held high longer than low. */
  function ReadBit(slot: seq<Event>): bool
    requires |slot| == BitSlot
  {
    slot[2].Wait? && slot[4].Wait? && slot[2].us > slot[4].us
  }

  /** A pulse and its guard wait read back as the bit that was sent. */
  lemma ReadPulse(one: bool, clk: DigitalPin, prev: bool)
    ensures ReadBit(Pulse(one, clk, prev) + [Wait(BitGuardUs)]) == one
  {
    PulseShape(one, clk, prev);
  }

  /** The first n bits carried by the slots of a trace. */
  function ReadBits(t: seq<Event>, n: nat): (r: seq<bool>)
    requires BitSlot * n <= |t|
    ensures |r| == n
  {
    seq(n, k requires 0 <= k < n => ReadBit(t[BitSlot * k..BitSlot * (k + 1)]))
  }

  /** Reading a bit train back yields the bits it was built from. */
  lemma ReadBitTrain(bits: seq<bool>, tail: seq<Event>, clk: DigitalPin, prev: bool)
    ensures ReadBits(BitTrain(bits, clk, prev) + tail, |bits|) == bits
  {
    var t := BitTrain(bits, clk, prev);
    forall k | 0 <= k < |bits|
      ensures ReadBits(t + tail, |bits|)[k] == bits[k]
    {
      BitTrainSlot(bits, clk, prev, k);
      SliceOfAppend(t, tail, BitSlot * k, BitSlot * (k + 1));
      ReadPulse(bits[k], clk, prev);
    }
  }

  /** The byte a digit transmission carries, or None for a trace that is not one. */
  function DecodeDigit(t: seq<Event>): (r: Option<bv8>)
    ensures r.Some? <==> |t| == DigitSlot && t[DigitSlot - 1] == Wait(DigitGuardUs)
  {
    if |t| == DigitSlot && t[DigitSlot - 1] == Wait(DigitGuardUs) then Some(FromBits(ReadBits(t, 8))) else None
  }

  /** What a digit transmission sends is exactly the byte it was built from. */
  lemma DecodeTransmission(p: bv8, clk: DigitalPin, prev: bool)
    ensures DecodeDigit(Transmission(Bits(p), clk, prev)) == Some(p)
  {
    ReadBitTrain(Bits(p), [Wait(DigitGuardUs)], clk, prev);
    BitsRoundTrip(p);
  }

  /** Every slot of a digit train decodes to the byte sent in it, in order. */
  lemma DecodeDigitFrames(ps: seq<bv8>, clk: DigitalPin, prev: bool)
    ensures forall k :: 0 <= k < |ps| ==>
      DecodeDigit(DigitFrames(ps, clk, prev)[DigitSlot * k..DigitSlot * (k + 1)]) == Some(ps[k])
  {
    forall k | 0 <= k < |ps|
      ensures DecodeDigit(DigitFrames(ps, clk, prev)[DigitSlot * k..DigitSlot * (k + 1)]) == Some(ps[k])
    {
      DigitFramesSlot(ps, clk, prev, k);
      DecodeTransmission(ps[k], clk, prev);
    }
  }

  /** A trace that ends with the transmission of p decodes, from where that
      transmission starts, to p. */
  lemma DecodeSent(start: seq<Event>, t: seq<Event>, p: bv8, clk: DigitalPin, prev: bool)
    requires t == start + Transmission(Bits(p), clk, prev)
    ensures DecodeDigit(t[|start|..]) == Some(p)
  {
    assert t[|start|..] == Transmission(Bits(p), clk, prev);
    DecodeTransmission(p, clk, prev);
  }
}
