/** The display controller CustomLEDs and the driver state it owns: the clock and
    enable pins, the digit count, the brightness and the shadow buffer of the
    patterns last sent to each position. Every platform call is appended to the
    ghost `trace`; the pin levels are read off that trace with LastWrite. */
module CustomDisplay {
  import opened Protocol
  import opened Segments

  const MaxDigits: nat := 4
  const DefaultBrightness: int := 7
  const MaxBrightness: int := 8
  /** Zero bits sent by `init` to reset the module's shift state. */
  const PrimingBits: nat := 64

  /** The digit count the controller keeps for a requested one: a count outside
      [1, 4] falls back to 4. */
  function DigitCount(requested: int): (r: nat)
    ensures 1 <= r <= MaxDigits
    ensures 1 <= requested <= MaxDigits ==> r == requested
    ensures requested < 1 || requested > MaxDigits ==> r == MaxDigits
  {
    if requested < 1 || requested > MaxDigits then MaxDigits else requested
  }

  /** What `clear` sends for `count` positions: each position gets the pattern of
      the blank index reduced modulo 10, that is, of digit 0. */
  function ClearTrace(count: nat, clk: DigitalPin, prev: bool): seq<Event>
  {
    DigitFrames(seq(count, _ => Table[Blank % 10]), clk, prev)
  }

  /** The pin set-up that `init` performs before priming. */
  function SetupTrace(clk: DigitalPin, enable: DigitalPin): seq<Event>
  {
    [SetPullNone(clk), SetPullNone(enable), Write(clk, Low), Write(enable, High)]
  }

  /** The priming sequence: 64 zero bits, each with its guard wait. */
  function PrimingTrace(clk: DigitalPin, prev: bool): seq<Event>
  {
    BitTrain(seq(PrimingBits, _ => false), clk, prev)
  }

  function InitTrace(clk: DigitalPin, enable: DigitalPin, count: nat, prev: bool): seq<Event>
  {
    SetupTrace(clk, enable) + PrimingTrace(clk, prev) + ClearTrace(count, clk, prev)
  }

  /** What `showNumber` sends: the patterns of the four decimal digits, most
      significant first. */
  function NumberPatterns(num: int): (r: seq<bv8>)
    ensures |r| == 4
  {
    var ds := Digits(num);
    [Table[ds[0]], Table[ds[1]], Table[ds[2]], Table[ds[3]]]
  }

  /** Clearing sends `count` digit transmissions, each of them the pattern 0x3F. */
  lemma ClearTraceShape(count: nat, clk: DigitalPin, prev: bool, k: nat)
    requires k < count
    ensures |ClearTrace(count, clk, prev)| == DigitSlot * count
    ensures ClearTrace(count, clk, prev)[DigitSlot * k..DigitSlot * (k + 1)] == Transmission(Bits(0x3F), clk, prev)
  {
    DigitFramesSlot(seq(count, _ => Table[Blank % 10]), clk, prev, k);
  }

  /** One step of `clear`: a trace holding the clearing of i positions, extended by
      one more transmission of the reduced blank pattern, holds the clearing of i + 1. */
  lemma NextCleared(start: seq<Event>, before: seq<Event>, after: seq<Event>, i: nat, clk: DigitalPin, prev: bool)
    requires before == start + ClearTrace(i, clk, prev)
    requires after == before + Transmission(Bits(Table[Blank % 10]), clk, prev)
    ensures after == start + ClearTrace(i + 1, clk, prev)
  {
    var p := Table[Blank % 10];
    assert seq(i + 1, _ => p) == seq(i, _ => p) + [p];
    DigitFramesSnoc(seq(i, _ => p), p, clk, prev);
  }

  /** The first n slots of a buffer are dark. */
  ghost predicate Dark(b: seq<bv8>, n: nat)
  {
    n <= |b| && forall k :: 0 <= k < n ==> b[k] == 0
  }

  /** One step of `clear` on the buffer: showing at slot i and then zeroing it keeps
      the slots before i dark and darkens slot i. */
  lemma NextDark(b0: seq<bv8>, b1: seq<bv8>, i: nat, count: nat, p: bv8)
    requires i < count == |b0| && Dark(b0, i)
    requires b1 == b0[i % count := p][i := 0]
    ensures Dark(b1, i + 1)
  {
  }

  /** `init` sets the pins up, then sends exactly 64 zero pulses each followed by the
      bit guard wait, and only then the digit transmissions of `clear`. */
  lemma InitTraceShape(clk: DigitalPin, enable: DigitalPin, count: nat, prev: bool, k: nat)
    requires k < PrimingBits
    ensures InitTrace(clk, enable, count, prev)[..4] == SetupTrace(clk, enable)
    ensures InitTrace(clk, enable, count, prev)[4 + BitSlot * k..4 + BitSlot * (k + 1)]
         == Pulse(false, clk, prev) + [Wait(BitGuardUs)]
    ensures InitTrace(clk, enable, count, prev)[4 + BitSlot * PrimingBits..] == ClearTrace(count, clk, prev)
  {
    var s, p, c := SetupTrace(clk, enable), PrimingTrace(clk, prev), ClearTrace(count, clk, prev);
    BitTrainSlot(seq(PrimingBits, _ => false), clk, prev, k);
    assert s + p + c == s + (p + c);
    assert (s + (p + c))[4 + BitSlot * k..4 + BitSlot * (k + 1)] == p[BitSlot * k..BitSlot * (k + 1)];
  }

  /** After `init` the clock pin is low and, unless it is the same pin, the enable
      pin high; the busy-waits requested add up to 18 microseconds per priming bit
      and 154 per cleared position. */
  lemma InitTraceEffects(clk: DigitalPin, enable: DigitalPin, count: nat, prev: bool)
    ensures LastWrite(InitTrace(clk, enable, count, prev), clk) == Some(Low)
    ensures clk != enable ==> LastWrite(InitTrace(clk, enable, count, prev), enable) == Some(High)
    ensures Elapsed(InitTrace(clk, enable, count, prev)) == 18 * PrimingBits + 154 * count
  {
    var s, p, c := SetupTrace(clk, enable), PrimingTrace(clk, prev), ClearTrace(count, clk, prev);
    var ps := seq(count, _ => Table[Blank % 10]);
    BitTrainEffects(seq(PrimingBits, _ => false), clk, prev);
    DigitFramesEffects(ps, clk, prev);
    ElapsedAppend(s, p);
    ElapsedAppend(s + p, c);
    SetupEffects(clk, enable);
    LastWriteAppend(s, p, clk);
    LastWriteAppend(s + p, c, clk);
    if clk != enable {
      LastWriteAppend(s, p, enable);
      LastWriteAppend(s + p, c, enable);
    }
  }

  /** The set-up waits for nothing and leaves the enable pin high and, when it is a
      different pin, the clock low. */
  lemma SetupEffects(clk: DigitalPin, enable: DigitalPin)
    ensures Elapsed(SetupTrace(clk, enable)) == 0
    ensures LastWrite(SetupTrace(clk, enable), enable) == Some(High)
    ensures clk != enable ==> LastWrite(SetupTrace(clk, enable), clk) == Some(Low)
  {
    var s := SetupTrace(clk, enable);
    assert s[..3][..2] == s[..2] && s[..2][..1] == s[..1] && s[..1][..0] == [];
    assert Elapsed(s[..1]) == 0;
    assert Elapsed(s[..2]) == 0;
    assert Elapsed(s[..3]) == 0;
    assert s[..4] == s;
  }

  /** Set-up, priming and clearing in a row form the trace of `init`. */
  lemma InitAssembled(t0: seq<Event>, t1: seq<Event>, t2: seq<Event>, t3: seq<Event>, zeros: seq<bool>,
                      clk: DigitalPin, enable: DigitalPin, count: nat, prev: bool)
    requires t1 == t0 + [SetPullNone(clk)] + [SetPullNone(enable)] + [Write(clk, Low)] + [Write(enable, High)]
    requires zeros == seq(PrimingBits, _ => false)
    requires t2 == t1 + BitTrain(zeros[..PrimingBits], clk, prev)
    requires t3 == t2 + ClearTrace(count, clk, prev)
    ensures t3 == t0 + InitTrace(clk, enable, count, prev)
  {
    assert zeros[..PrimingBits] == zeros;
  }

  /** The four digits `showNumber` computes are those of Digits, already reduced. */
  lemma NumberSplit(num: int, n: int, a: int, b: int, c: int, d: int)
    requires n == Clamp(num, 0, MaxShown)
    requires d == n % 10 && c == (n / 10) % 10 && b == (n / 100) % 10 && a == (n / 1000) % 10
    ensures a >= 0 && b >= 0 && c >= 0 && d >= 0
    ensures NumberPatterns(num) == [Table[a % 10], Table[b % 10], Table[c % 10], Table[d % 10]]
  {
    assert Digits(num) == [a, b, c, d];
    assert a % 10 == a && b % 10 == b && c % 10 == c && d % 10 == d;
  }

  /** Four digit transmissions in a row form the digit train of the four patterns. */
  lemma FourFrames(t0: seq<Event>, t1: seq<Event>, t2: seq<Event>, t3: seq<Event>, t4: seq<Event>,
                   ps: seq<bv8>, clk: DigitalPin, prev: bool)
    requires |ps| == 4
    requires t1 == t0 + Transmission(Bits(ps[0]), clk, prev)
    requires t2 == t1 + Transmission(Bits(ps[1]), clk, prev)
    requires t3 == t2 + Transmission(Bits(ps[2]), clk, prev)
    requires t4 == t3 + Transmission(Bits(ps[3]), clk, prev)
    ensures t4 == t0 + DigitFrames(ps, clk, prev)
  {
    assert DigitFrames(ps[..0], clk, prev) == [];
    NextFrame(t0, t0, t1, ps, 0, clk, prev);
    NextFrame(t0, t1, t2, ps, 1, clk, prev);
    NextFrame(t0, t2, t3, ps, 2, clk, prev);
    NextFrame(t0, t3, t4, ps, 3, clk, prev);
    assert ps[..4] == ps;
  }

  lemma NextFrame(start: seq<Event>, before: seq<Event>, after: seq<Event>, ps: seq<bv8>, i: nat,
                  clk: DigitalPin, prev: bool)
    requires i < |ps|
    requires before == start + DigitFrames(ps[..i], clk, prev)
    requires after == before + Transmission(Bits(ps[i]), clk, prev)
    ensures after == start + DigitFrames(ps[..i + 1], clk, prev)
  {
    DigitFramesSnoc(ps[..i], ps[i], clk, prev);
    assert ps[..i] + [ps[i]] == ps[..i + 1];
  }

  /** Writing ps[0..3] to positions 0..3 modulo `count` leaves in each slot the pattern
      of the last position that wraps onto it. */
  lemma FourSlots(b0: seq<bv8>, b1: seq<bv8>, b2: seq<bv8>, b3: seq<bv8>, b4: seq<bv8>, count: nat, ps: seq<bv8>)
    requires 1 <= count <= MaxDigits && |b0| == count && |ps| == 4
    requires b1 == b0[0 % count := ps[0]] && b2 == b1[1 % count := ps[1]]
    requires b3 == b2[2 % count := ps[2]] && b4 == b3[3 % count := ps[3]]
    ensures forall j :: MaxDigits - count <= j < MaxDigits ==> b4[j % count] == ps[j]
  {
  }

  class CustomLEDs {
    const clkPin: DigitalPin
    const enablePin: DigitalPin
    const count: nat
    /** Shadow buffer: the pattern last stored for each digit position. */
    const buf: array<bv8>
    var brightness: int
    /** The platform's interrupt-enable flag. */
    var irq: bool
    /** Every platform call made so far, in order. */
    ghost var trace: seq<Event>

    ghost predicate Valid()
      reads this
    {
      1 <= count <= MaxDigits && buf.Length == count && 0 <= brightness <= MaxBrightness
    }

    constructor (clk: DigitalPin, enable: DigitalPin, count: int, interruptsEnabled: bool)
      ensures Valid() && fresh(buf)
      ensures clkPin == clk && enablePin == enable && this.count == DigitCount(count)
      ensures brightness == DefaultBrightness && irq == interruptsEnabled
      ensures forall k :: 0 <= k < this.count ==> buf[k] == 0
      ensures trace == InitTrace(clk, enable, this.count, interruptsEnabled)
    {
      clkPin := clk;
      enablePin := enable;
      this.count := DigitCount(count);
      buf := new bv8[DigitCount(count)](_ => 0);
      brightness := DefaultBrightness;
      irq := interruptsEnabled;
      trace := [];
      new;
      Init();
    }

    // The platform calls the driver makes; each only records itself in the trace.

    method SetPull(pin: DigitalPin)
      modifies this`trace
      ensures trace == old(trace) + [SetPullNone(pin)]
    {
      trace := trace + [SetPullNone(pin)];
    }

    method DigitalWritePin(pin: DigitalPin, level: Level)
      modifies this`trace
      ensures trace == old(trace) + [Write(pin, level)]
    {
      trace := trace + [Write(pin, level)];
    }

    method WaitMicros(us: nat)
      modifies this`trace
      ensures trace == old(trace) + [Wait(us)]
    {
      trace := trace + [Wait(us)];
    }

    /** Sets the interrupt-enable flag and answers the one it replaced. */
    method EnableInterrupts(enabled: bool) returns (previous: bool)
      modifies this`trace, this`irq
      ensures previous == old(irq) && irq == enabled
      ensures trace == old(trace) + [SetInterrupts(enabled)]
    {
      previous := irq;
      irq := enabled;
      trace := trace + [SetInterrupts(enabled)];
    }

    // The driver.

    method Init()
      requires Valid()
      modifies this`trace, this`irq, buf
      ensures Valid() && irq == old(irq)
      ensures forall k :: 0 <= k < count ==> buf[k] == 0
      ensures trace == old(trace) + InitTrace(clkPin, enablePin, count, irq)
    {
      SetPull(clkPin);
      SetPull(enablePin);
      DigitalWritePin(clkPin, Low);
      DigitalWritePin(enablePin, High);
      ghost var setup := trace;
      ghost var zeros := seq(PrimingBits, _ => false);
      for i := 0 to PrimingBits
        modifies this`trace, this`irq
        invariant irq == old(irq)
        invariant trace == setup + BitTrain(zeros[..i], clkPin, irq)
      {
        ghost var before := trace;
        BitZero();
        WaitMicros(BitGuardUs);
        NextBit(setup, before, trace, zeros, i, clkPin, irq);
      }
      ghost var primed := trace;
      Clear();
      InitAssembled(old(trace), setup, primed, trace, zeros, clkPin, enablePin, count, irq);
    }

    method BitZero()
      modifies this`trace, this`irq
      ensures irq == old(irq)
      ensures trace == old(trace) + Pulse(false, clkPin, irq)
    {
      var prev := EnableInterrupts(false);
      DigitalWritePin(clkPin, High);
      WaitMicros(ShortHoldUs);
      DigitalWritePin(clkPin, Low);
      WaitMicros(LongHoldUs);
      var masked := EnableInterrupts(prev);
    }

    method BitOne()
      modifies this`trace, this`irq
      ensures irq == old(irq)
      ensures trace == old(trace) + Pulse(true, clkPin, irq)
    {
      var prev := EnableInterrupts(false);
      DigitalWritePin(clkPin, High);
      WaitMicros(LongHoldUs);
      DigitalWritePin(clkPin, Low);
      WaitMicros(ShortHoldUs);
      var masked := EnableInterrupts(prev);
    }

    /** Shows digit `num` at position `bit`, both reduced: stores the digit's pattern
        in the wrapped slot and sends it, least significant bit first. */
    method ShowBit(bit: int := 0, num: int := 0)
      requires Valid() && bit >= 0 && num >= 0
      modifies this`trace, this`irq, buf
      ensures Valid() && irq == old(irq)
      ensures buf[..] == old(buf[..])[bit % count := Table[num % 10]]
      ensures trace == old(trace) + Transmission(Bits(Table[num % 10]), clkPin, irq)
      ensures DecodeDigit(trace[|old(trace)|..]) == Some(buf[bit % count])
    {
      var slot := bit % count;
      var digit := num % 10;
      buf[slot] := Table[digit];
      ghost var bits := Bits(Table[digit]);
      for i := 0 to 8
        modifies this`trace, this`irq
        invariant irq == old(irq)
        invariant trace == old(trace) + BitTrain(bits[..i], clkPin, irq)
      {
        ghost var before := trace;
        var enableSegment := BitOf(Table[digit], i);
        if enableSegment {
          BitOne();
        } else {
          BitZero();
        }
        WaitMicros(BitGuardUs);
        NextBit(old(trace), before, trace, bits, i, clkPin, irq);
      }
      ghost var sent := trace;
      WaitMicros(DigitGuardUs);
      LastBit(old(trace), sent, trace, bits, clkPin, irq);
      DecodeSent(old(trace), trace, Table[digit], clkPin, irq);
    }

    /** As ShowBit, with the decimal point lit: the stored byte has bit 7 set, and the
        eighth bit sent is a one whatever the pattern holds there. */
    method ShowBitWithDP(bit: int := 0, num: int := 0)
      requires Valid() && bit >= 0 && num >= 0
      modifies this`trace, this`irq, buf
      ensures Valid() && irq == old(irq)
      ensures buf[..] == old(buf[..])[bit % count := WithPoint(Table[num % 10])]
      ensures trace == old(trace) + Transmission(DpBits(Table[num % 10]), clkPin, irq)
      ensures trace == old(trace) + Transmission(Bits(WithPoint(Table[num % 10])), clkPin, irq)
      ensures DecodeDigit(trace[|old(trace)|..]) == Some(buf[bit % count])
    {
      var slot := bit % count;
      var digit := num % 10;
      buf[slot] := WithPoint(Table[digit]);
      ghost var bits := DpBits(Table[digit]);
      for i := 0 to 8
        modifies this`trace, this`irq
        invariant irq == old(irq)
        invariant trace == old(trace) + BitTrain(bits[..i], clkPin, irq)
      {
        ghost var before := trace;
        var enableSegment := DpBitOf(Table[digit], i);
        if enableSegment {
          BitOne();
        } else {
          BitZero();
        }
        WaitMicros(BitGuardUs);
        NextBit(old(trace), before, trace, bits, i, clkPin, irq);
      }
      ghost var sent := trace;
      WaitMicros(DigitGuardUs);
      LastBit(old(trace), sent, trace, bits, clkPin, irq);
      DpBitsAreStoredByte(Table[digit]);
      DecodeSent(old(trace), trace, WithPoint(Table[digit]), clkPin, irq);
    }

    /** Shows `num` clamped to [0, 9999] on positions 0 to 3, thousands first. Each
        slot ends up holding the digit of the last position that wraps onto it. */
    method ShowNumber(num: int)
      requires Valid()
      modifies this`trace, this`irq, buf
      ensures Valid() && irq == old(irq)
      ensures forall j :: MaxDigits - count <= j < MaxDigits ==> buf[j % count] == NumberPatterns(num)[j]
      ensures trace == old(trace) + DigitFrames(NumberPatterns(num), clkPin, irq)
    {
      var n := Clamp(num, 0, MaxShown);
      var d := n % 10;
      var c := (n / 10) % 10;
      var b := (n / 100) % 10;
      var a := (n / 1000) % 10;
      ghost var ps := NumberPatterns(num);
      NumberSplit(num, n, a, b, c, d);
      ghost var t0, b0 := trace, buf[..];
      ShowBit(0, a);
      ghost var t1, b1 := trace, buf[..];
      ShowBit(1, b);
      ghost var t2, b2 := trace, buf[..];
      ShowBit(2, c);
      ghost var t3, b3 := trace, buf[..];
      ShowBit(3, d);
      FourSlots(b0, b1, b2, b3, buf[..], count, ps);
      FourFrames(t0, t1, t2, t3, trace, ps, clkPin, irq);
    }

    /** Sends the digit-0 pattern to every position (the blank index is reduced
        modulo 10 before the lookup) and zeroes every slot afterwards. */
    method Clear()
      requires Valid()
      modifies this`trace, this`irq, buf
      ensures Valid() && irq == old(irq)
      ensures forall k :: 0 <= k < count ==> buf[k] == 0
      ensures trace == old(trace) + ClearTrace(count, clkPin, irq)
    {
      for i := 0 to count
        invariant irq == old(irq)
        invariant Dark(buf[..], i)
        invariant trace == old(trace) + ClearTrace(i, clkPin, irq)
      {
        ghost var before, dark := trace, buf[..];
        ShowBit(i, Blank);
        NextCleared(old(trace), before, trace, i, clkPin, irq);
        buf[i] := 0;
        NextDark(dark, buf[..], i, count, Table[Blank % 10]);
      }
    }

    /** Stores `val` clamped to [0, 8] and drives the enable pin low exactly when
        that is 0. */
    method Intensity(val: int := DefaultBrightness)
      requires Valid()
      modifies this`brightness, this`trace
      ensures Valid()
      ensures brightness == Clamp(val, 0, MaxBrightness)
      ensures trace == old(trace) + [Write(enablePin, if brightness == 0 then Low else High)]
      ensures LastWrite(trace, enablePin) == Some(if Clamp(val, 0, MaxBrightness) == 0 then Low else High)
    {
      brightness := Clamp(val, 0, MaxBrightness);
      if brightness == 0 {
        DigitalWritePin(enablePin, Low);
      } else {
        DigitalWritePin(enablePin, High);
      }
    }

    method Off()
      requires Valid()
      modifies this`brightness, this`trace
      ensures Valid() && brightness == 0
      ensures trace == old(trace) + [Write(enablePin, Low)]
    {
      Intensity(0);
    }

    /** Re-enables with the stored brightness, or 7 when the stored one is 0. */
    method On()
      requires Valid()
      modifies this`brightness, this`trace
      ensures Valid()
      ensures brightness == if old(brightness) == 0 then DefaultBrightness else old(brightness)
      ensures trace == old(trace) + [Write(enablePin, High)]
    {
      Intensity(if brightness != 0 then brightness else DefaultBrightness);
    }
  }
}
