/** Client-side uses of the display controller: what a user program observes after a
    short series of calls on a freshly constructed four- or two-digit display. */
module Scenarios {
  import opened Protocol
  import opened Segments
  import opened CustomDisplay

  /** A four-digit display showing 1234 holds the patterns of 1, 2, 3 and 4. */
  method ShowTwelveThirtyFour(clk: DigitalPin, enable: DigitalPin, irq: bool) returns (shown: seq<bv8>)
    ensures shown == [0x06, 0x5B, 0x4F, 0x66]
  {
    var d := new CustomLEDs(clk, enable, 4, irq);
    d.ShowNumber(1234);
    assert NumberPatterns(1234) == [Table[1], Table[2], Table[3], Table[4]];
    shown := d.buf[..];
  }

  /** A number above 9999 is shown as 9999, a negative one as 0000. */
  method ShowOutOfRange(clk: DigitalPin, enable: DigitalPin, irq: bool) returns (high: seq<bv8>, low: seq<bv8>)
    ensures high == [0x6F, 0x6F, 0x6F, 0x6F]
    ensures low == [0x3F, 0x3F, 0x3F, 0x3F]
  {
    var d := new CustomLEDs(clk, enable, 4, irq);
    d.ShowNumber(10000);
    assert NumberPatterns(10000) == [Table[9], Table[9], Table[9], Table[9]];
    high := d.buf[..];
    d.ShowNumber(-5);
    assert NumberPatterns(-5) == [Table[0], Table[0], Table[0], Table[0]];
    low := d.buf[..];
  }

  /** On a two-digit display the thousands and hundreds land on the same slots as the
      tens and units and are overwritten by them: 1234 leaves 3 and 4. */
  method ShowOnTwoDigits(clk: DigitalPin, enable: DigitalPin, irq: bool) returns (shown: seq<bv8>)
    ensures shown == [0x4F, 0x66]
  {
    var d := new CustomLEDs(clk, enable, 2, irq);
    d.ShowNumber(1234);
    assert NumberPatterns(1234) == [Table[1], Table[2], Table[3], Table[4]];
    assert d.buf[2 % 2] == Table[3] && d.buf[3 % 2] == Table[4];
    shown := d.buf[..];
  }

  /** A requested count outside [1, 4] gives a four-digit display, and a digit shown
      with its decimal point is stored with bit 7 set. */
  method ShowWithPoint(clk: DigitalPin, enable: DigitalPin, irq: bool) returns (digits: nat, stored: bv8)
    ensures digits == 4 && stored == 0xED
  {
    var d := new CustomLEDs(clk, enable, 7, irq);
    d.ShowBitWithDP(6, 15);
    digits := d.count;
    stored := d.buf[2];
  }

  /** The default arguments: `showbit()` shows 0 at position 0, `showbitWithDP()`
      the same with the decimal point, and `intensity()` sets brightness 7. */
  method DefaultArguments(clk: DigitalPin, enable: DigitalPin, irq: bool)
    returns (plain: bv8, pointed: bv8, level: int)
    ensures plain == 0x3F && pointed == 0xBF && level == DefaultBrightness
  {
    var d := new CustomLEDs(clk, enable, 4, irq);
    d.Intensity(0);
    d.ShowBit();
    plain := d.buf[0];
    d.ShowBitWithDP();
    pointed := d.buf[0];
    d.Intensity();
    level := d.brightness;
  }

  /** After `off` then `on` the brightness is the default 7, whatever was set before. */
  method DimOffOn(clk: DigitalPin, enable: DigitalPin, irq: bool) returns (before: int, after: int)
    ensures before == 3 && after == DefaultBrightness && after != before
  {
    var d := new CustomLEDs(clk, enable, 4, irq);
    d.Intensity(3);
    before := d.brightness;
    d.Off();
    d.On();
    after := d.brightness;
  }

  /** `off` then `on` on any display: the default brightness, and the enable pin high. */
  method OffThenOn(d: CustomLEDs)
    requires d.Valid()
    modifies d`brightness, d`trace
    ensures d.Valid() && d.brightness == DefaultBrightness
    ensures LastWrite(d.trace, d.enablePin) == Some(High)
  {
    d.Off();
    d.On();
    LastWriteAppend(old(d.trace) + [Write(d.enablePin, Low)], [Write(d.enablePin, High)], d.enablePin);
  }

  /** Clearing twice leaves a dark buffer and sends the clear train twice. */
  method ClearTwice(d: CustomLEDs)
    requires d.Valid()
    modifies d`trace, d`irq, d.buf
    ensures d.Valid() && d.irq == old(d.irq)
    ensures forall k :: 0 <= k < d.count ==> d.buf[k] == 0
    ensures d.trace == old(d.trace) + ClearTrace(d.count, d.clkPin, d.irq) + ClearTrace(d.count, d.clkPin, d.irq)
  {
    d.Clear();
    d.Clear();
  }
}
