/**
 * The sensor-side lock check (FieldResonanceDecoder.py): a GPIO pin read as
 * HIGH or LOW, and an MCP3008 ADC reading decoded from the three bytes an
 * SPI transfer returns.  Whether the GPIO and SPI libraries imported is the
 * flag `hasHardware`; what the pin and the SPI bus return are parameters.
 */
module Resonance {
  import opened Errors
  import opened Signals
  import opened Text

  /** `FieldResonanceDecoder(gpio_pin, adc_channel, adc_vref)` */
  datatype FieldResonanceDecoder = FieldResonanceDecoder(gpioPin: int, adcChannel: Option<int>, adcVref: real)

  /** The defaults: pin 17, no ADC channel, a 3.3 V reference. */
  const DefaultDecoder := FieldResonanceDecoder(17, None, 3.3)

  /** `GPIO.HIGH` */
  const High: int := 1

  /** The largest 10-bit reading, by which `read_adc_voltage` divides. */
  const AdcFullScale: int := 1023

  /**
   * `read_gpio_lock()`: without hardware the simulated lock is granted;
   * with it, the lock holds exactly when the pin reads HIGH.
   */
  function ReadGpioLock(d: FieldResonanceDecoder, hasHardware: bool, pinLevel: int): (locked: bool)
    ensures !hasHardware ==> locked
    ensures hasHardware ==> (locked <==> pinLevel == High)
  {
    if !hasHardware then true else pinLevel == High
  }

  /** Python's `a & b` on naturals, bit by bit from the lowest. */
  function BitAnd(a: nat, b: nat): (c: nat)
    ensures c <= a && c <= b
  {
    if a == 0 || b == 0 then 0
    else 2 * BitAnd(a / 2, b / 2) + (if a % 2 == 1 && b % 2 == 1 then 1 else 0)
  }

  /** Masking with 3 keeps the two low bits: the value modulo 4. */
  lemma {:induction false} MaskThree(b: nat)
    ensures BitAnd(b, 3) == b % 4
  {
    if b > 0 {
      assert BitAnd(b, 3) == 2 * BitAnd(b / 2, 1) + b % 2;
      if b / 2 > 0 {
        assert BitAnd(b / 2, 1) == 2 * BitAnd(b / 4, 0) + (b / 2) % 2;
      }
      assert b % 4 == 2 * ((b / 2) % 2) + b % 2;
    }
  }

  /** 2^k, the factor of a left shift by k bits. */
  function Pow2(k: nat): (p: nat)
    ensures p >= 1
  {
    if k == 0 then 1 else 2 * Pow2(k - 1)
  }

  /** Python's `x << k`: multiplication by 2^k, for negative x too. */
  function ShiftLeft(x: int, k: nat): int {
    x * Pow2(k)
  }

  /** The MCP3008 request frame `[1, (8 + ch) << 4, 0]`: a start bit, then single-ended mode and the channel in the high nibble. */
  function RequestFrame(channel: int): (frame: seq<int>)
    ensures |frame| == 3 && frame[0] == 1 && frame[2] == 0
    ensures frame[1] / 16 == 8 + channel && frame[1] % 16 == 0
  {
    assert Pow2(4) == 16;
    [1, ShiftLeft(8 + channel, 4), 0]
  }

  /** `((adc[1] & 3) << 8) + adc[2]`: the two low bits of the second byte above the third byte. */
  function AdcValue(b1: byte, b2: byte): (data: int)
    ensures 0 <= data <= AdcFullScale
    ensures data / 256 == b1 % 4 && data % 256 == b2
  {
    MaskThree(b1);
    assert Pow2(8) == 256;
    ShiftLeft(BitAnd(b1, 3), 8) + b2
  }

  /** Every 10-bit value is the reading of some pair of response bytes. */
  lemma AdcValueOnto(data: int)
    requires 0 <= data <= AdcFullScale
    ensures AdcValue(data / 256, data % 256) == data
  {
  }

  /** `(data * adc_vref) / 1023.0`: the reading as a fraction of the reference voltage. */
  function Voltage(data: int, vref: real): (v: real)
    requires 0 <= data <= AdcFullScale
    ensures vref >= 0.0 ==> 0.0 <= v <= vref
    ensures data == AdcFullScale ==> v == vref
  {
    var x := data as real;
    ScaledFraction(x, vref);
    (x * vref) / 1023.0
  }

  lemma ScaledFraction(x: real, vref: real)
    requires 0.0 <= x <= 1023.0
    ensures vref >= 0.0 ==> 0.0 <= (x * vref) / 1023.0 <= vref
  {
    if vref >= 0.0 {
      var q := (x * vref) / 1023.0;
      assert q * 1023.0 == x * vref;
      MulNonneg(x, vref);
      MulNonneg(1023.0 - x, vref);
      assert vref * 1023.0 - x * vref == (1023.0 - x) * vref;
      ScaleOrder(q, vref, 1023.0);
      ScaleOrder(0.0, q, 1023.0);
    }
  }

  /**
   * `read_adc_voltage()` given the bytes the SPI transfer of the request
   * frame returned: 0.0 without hardware or without an ADC channel; a
   * response shorter than three bytes raises IndexError.
   */
  function ReadAdcVoltage(d: FieldResonanceDecoder, hasHardware: bool, response: seq<byte>): (r: Result<real>)
    ensures (!hasHardware || d.adcChannel.None?) ==> r == Success(0.0)
    ensures r.Failure? <==> hasHardware && d.adcChannel.Some? && |response| < 3
    ensures r.Failure? ==> r.error == IndexError
    ensures r.Success? && d.adcVref >= 0.0 ==> 0.0 <= r.value <= d.adcVref
  {
    if !hasHardware || d.adcChannel.None? then Success(0.0)
    else if |response| < 3 then Failure(IndexError)
    else Success(Voltage(AdcValue(response[1], response[2]), d.adcVref))
  }
}
