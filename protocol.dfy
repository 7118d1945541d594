/** Wire-level constants and byte encodings of the Grove I2C Motor Driver v1.3
    register protocol: the PWM frequency codes, the register addresses, the
    direction byte and the speed magnitude byte. */
module Protocol {

  datatype Option<T> = None | Some(value: T)

  /** The five PWM carrier frequencies the board's firmware recognises. */
  datatype Frequency = F31372Hz | F3921Hz | F490Hz | F122Hz | F30Hz

  /** The code sent on the wire for a frequency. */
  function FrequencyCode(f: Frequency): (c: int)
    ensures 1 <= c <= 5
  {
    match f
    case F31372Hz => 0x01
    case F3921Hz => 0x02
    case F490Hz => 0x03
    case F122Hz => 0x04
    case F30Hz => 0x05
  }

  /** Looks a frequency up by its code; None for a code the firmware does not know. */
  function FrequencyOf(c: int): (r: Option<Frequency>)
    ensures r.Some? <==> 1 <= c <= 5
  {
    if c == 0x01 then Some(F31372Hz)
    else if c == 0x02 then Some(F3921Hz)
    else if c == 0x03 then Some(F490Hz)
    else if c == 0x04 then Some(F122Hz)
    else if c == 0x05 then Some(F30Hz)
    else None
  }

  /** Every frequency is found again from its code ... */
  lemma FrequencyCodeRoundTrip(f: Frequency)
    ensures FrequencyOf(FrequencyCode(f)) == Some(f)
  {
  }

  /** ... and every known code is the code of the frequency it names. */
  lemma FrequencyOfRoundTrip(c: int)
    requires 1 <= c <= 5
    ensures FrequencyOf(c).Some? && FrequencyCode(FrequencyOf(c).value) == c
  {
  }

  /** The three device registers the driver writes to. */
  datatype Register = FrequencyRegister | DirectionRegister | SpeedRegister

  /** The register's address byte. */
  function RegisterCode(r: Register): (c: int)
    ensures 0 <= c < 0x100
    ensures c >= 0x80
  {
    match r
    case FrequencyRegister => 0x84
    case DirectionRegister => 0xAA
    case SpeedRegister => 0x82
  }

  /** Looks a register up by its address byte; None for any other address. */
  function RegisterOf(c: int): (r: Option<Register>)
    ensures r.Some? <==> c == 0x84 || c == 0xAA || c == 0x82
  {
    if c == 0x84 then Some(FrequencyRegister)
    else if c == 0xAA then Some(DirectionRegister)
    else if c == 0x82 then Some(SpeedRegister)
    else None
  }

  /** Distinct registers have distinct addresses, and lookup inverts the address. */
  lemma RegisterCodeInjective(r1: Register, r2: Register)
    ensures RegisterCode(r1) == RegisterCode(r2) <==> r1 == r2
    ensures RegisterOf(RegisterCode(r1)) == Some(r1)
  {
  }

  /** The direction byte holds one two-bit field per channel: channel 1 in
      bits 0-1, channel 2 in bits 2-3.  A field is 0b01 when the channel
      runs in reverse (negative speed) and 0b10 otherwise; zero counts as
      forward. */
  function DirectionByte(speed1: real, speed2: real): (d: int)
    ensures d == 5 || d == 6 || d == 9 || d == 10
    ensures DirectionSigns(d) == Some((speed1 < 0.0, speed2 < 0.0))
  {
    (if speed1 < 0.0 then 1 else 2) + (if speed2 < 0.0 then 4 else 8)
  }

  /** Reads a direction byte back as (channel 1 reverses, channel 2 reverses);
      None when the byte is not one in which each field is 0b01 or 0b10. */
  function DirectionSigns(d: int): (r: Option<(bool, bool)>)
    ensures r.Some? <==> d == 5 || d == 6 || d == 9 || d == 10
  {
    if d < 0 || d >= 16 then None
    else
      var low, high := d % 4, d / 4;
      if (low == 1 || low == 2) && (high == 1 || high == 2) then Some((low == 1, high == 1))
      else None
  }

  /** The low field depends only on the first speed, the high field only on the second. */
  lemma DirectionFieldsIndependent(speed1: real, speed2: real, other1: real, other2: real)
    ensures DirectionByte(speed1, speed2) % 4 == DirectionByte(speed1, other2) % 4
    ensures DirectionByte(speed1, speed2) / 4 == DirectionByte(other1, speed2) / 4
  {
  }

  /** Two speed pairs give the same direction byte exactly when their signs agree. */
  lemma DirectionByteInjective(a1: real, a2: real, b1: real, b2: real)
    ensures DirectionByte(a1, a2) == DirectionByte(b1, b2)
        <==> ((a1 < 0.0) == (b1 < 0.0) && (a2 < 0.0) == (b2 < 0.0))
  {
  }

  /** The four sign combinations and their bytes; zero is forward. */
  lemma DirectionTable(speed1: real, speed2: real)
    ensures speed1 < 0.0 && speed2 < 0.0 ==> DirectionByte(speed1, speed2) == 5
    ensures speed1 < 0.0 && speed2 >= 0.0 ==> DirectionByte(speed1, speed2) == 9
    ensures speed1 >= 0.0 && speed2 < 0.0 ==> DirectionByte(speed1, speed2) == 6
    ensures speed1 >= 0.0 && speed2 >= 0.0 ==> DirectionByte(speed1, speed2) == 10
    ensures DirectionByte(0.0, 0.0) == 10
  {
  }

  function Abs(x: real): (a: real)
    ensures a >= 0.0 && (a == x || a == -x)
  {
    if x < 0.0 then -x else x
  }

  /** Python's round() taken on an exact value: the nearest integer, and on a
      tie the even one of the two neighbours. */
  function RoundHalfEven(x: real): (n: int)
    ensures n as real - 0.5 <= x <= n as real + 0.5
    ensures (x == n as real - 0.5 || x == n as real + 0.5) ==> n % 2 == 0
  {
    var fl := x.Floor;
    var frac := x - fl as real;
    if frac < 0.5 then fl
    else if frac > 0.5 then fl + 1
    else if fl % 2 == 0 then fl
    else fl + 1
  }

  /** The two properties above determine the rounded value. */
  lemma RoundHalfEvenUnique(x: real, m: int)
    requires m as real - 0.5 <= x <= m as real + 0.5
    requires (x == m as real - 0.5 || x == m as real + 0.5) ==> m % 2 == 0
    ensures m == RoundHalfEven(x)
  {
  }

  /** Rounding never reverses an order. */
  lemma RoundHalfEvenMonotone(x: real, y: real)
    requires x <= y
    ensures RoundHalfEven(x) <= RoundHalfEven(y)
  {
  }

  /** floatToByte: the duty-cycle byte of one channel, the rounded magnitude
      of the speed scaled to 255.  The sign is not part of it (it travels in
      the direction byte) and nothing is clamped: a magnitude above 1 can give
      a value above 255. */
  function FloatToByte(f: real): (b: int)
    ensures 0 <= b
    ensures b as real - 0.5 <= Abs(f) * 255.0 <= b as real + 0.5
    ensures Abs(f) <= 1.0 ==> b <= 255
  {
    RoundHalfEven(Abs(f) * 255.0)
  }

  /** The magnitude byte does not depend on the sign. */
  lemma FloatToByteSignless(f: real)
    ensures FloatToByte(-f) == FloatToByte(f)
  {
  }

  /** Zero is off, full speed either way is 255, half speed is 128. */
  lemma FloatToByteValues()
    ensures FloatToByte(0.0) == 0
    ensures FloatToByte(1.0) == 255 && FloatToByte(-1.0) == 255
    ensures FloatToByte(0.5) == 128 && FloatToByte(-0.5) == 128
  {
  }

  /** The byte fits in 0..255 exactly when the scaled magnitude is below 255.5. */
  lemma FloatToByteFitsByte(f: real)
    ensures FloatToByte(f) <= 255 <==> Abs(f) * 255.0 < 255.5
  {
  }

  /** No saturation: twice full speed encodes as 510, not 255. */
  lemma FloatToByteNoClamp()
    ensures FloatToByte(2.0) == 510 && FloatToByte(-2.0) == 510
  {
  }

  /** A larger magnitude never gives a smaller byte. */
  lemma FloatToByteMonotone(f: real, g: real)
    requires Abs(f) <= Abs(g)
    ensures FloatToByte(f) <= FloatToByte(g)
  {
  }

  /** Read back as a duty cycle, the byte is within half a step of the magnitude. */
  lemma FloatToByteQuantisation(f: real)
    ensures Abs(FloatToByte(f) as real / 255.0 - Abs(f)) <= 1.0 / 510.0
  {
  }
}
