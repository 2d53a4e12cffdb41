/** The DS18B20 temperature register: its 16-bit two's-complement
    encoding in the scratchpad's first two bytes, its meaning in degrees
    Celsius, and the value a read hands back to its caller. */
module Temperature {
  import opened OneWire

  /** The driver's int16_t: the raw temperature register, in 1/16 °C. */
  newtype int16 = x: int | -0x8000 <= x < 0x8000

  /** The outcome of one read: no sensor answered the first reset, or
      the raw register read from the scratchpad. */
  datatype Reading = NotDetected | Temp(raw: int16)

  /** The 16-bit pattern of a register: its two's-complement encoding as an unsigned number. */
  function Word(raw: int16): (w: int)
    ensures 0 <= w < 0x10000
    ensures (w - raw as int) % 0x10000 == 0
  {
    if raw < 0 then raw as int + 0x10000 else raw as int
  }

  /** The register `(msb << 8) | lsb` reinterpreted as a 16-bit two's-complement integer. */
  function Raw(lsb: byte, msb: byte): (r: int16)
    ensures Word(r) == msb as int * 0x100 + lsb as int
    ensures r < 0 <==> msb >= 0x80
  {
    var u := msb as int * 0x100 + lsb as int;
    if u >= 0x8000 then (u - 0x10000) as int16 else u as int16
  }

  /** A byte read as an unsigned number lies in 0..255 and converts back to itself. */
  lemma ByteIntByte(b: byte)
    ensures 0 <= b as int < 0x100 && (b as int) as byte == b
  {
  }

  /** Decoding keeps both bytes: distinct byte pairs give distinct registers. */
  lemma RawInjective(lsb: byte, msb: byte, lsb': byte, msb': byte)
    ensures Raw(lsb, msb) == Raw(lsb', msb') ==> lsb == lsb' && msb == msb'
  {
    if Raw(lsb, msb) == Raw(lsb', msb') {
      ByteIntByte(lsb);
      ByteIntByte(msb);
      ByteIntByte(lsb');
      ByteIntByte(msb');
      Digits(msb as int, lsb as int, msb' as int, lsb' as int);
    }
  }

  /** Two base-256 digit pairs denote the same number only if they are equal. */
  lemma Digits(hi: int, lo: int, hi': int, lo': int)
    requires 0 <= lo < 0x100 && 0 <= lo' < 0x100
    requires hi * 0x100 + lo == hi' * 0x100 + lo'
    ensures hi == hi' && lo == lo'
  {
  }

  /** The temperature in degrees Celsius: 1/16 °C per unit of the register. */
  function Celsius(raw: int16): (c: real)
    ensures c * 16.0 == raw as real
    ensures -2048.0 <= c < 2048.0
  {
    raw as real / 16.0
  }

  /** The documented register values and the temperatures they stand for. */
  lemma DecodeExamples()
    ensures Raw(0x91, 0x01) == 401 && Celsius(401) == 25.0625
    ensures Raw(0x5E, 0xFF) == -162 && Celsius(-162) == -10.125
    ensures Raw(0x00, 0x00) == 0 && Celsius(0) == 0.0
    ensures Raw(0xFF, 0xFF) == -1 && Celsius(-1) == -0.0625
  {
  }

  /** The value the driver hands back as a float: the temperature, or
      -1000.0 when no sensor answered. */
  function Returned(r: Reading): (v: real)
    ensures r == NotDetected ==> v == -1000.0
    ensures r.Temp? ==> v * 16.0 == r.raw as real
  {
    match r
    case NotDetected => -1000.0
    case Temp(raw) => Celsius(raw)
  }

  /** Within the sensor's measuring range, -55 °C to +125 °C, no
      temperature equals the not-detected value. */
  lemma SentinelOutsideRange(raw: int16)
    requires -55.0 <= Celsius(raw) <= 125.0
    ensures Returned(Temp(raw)) != Returned(NotDetected)
  {
  }

  /** The not-detected value is itself a decodable register value: 0xC180 reads as -1000 °C. */
  lemma SentinelIsDecodable()
    ensures Raw(0x80, 0xC1) == -16000
    ensures Returned(Temp(Raw(0x80, 0xC1))) == Returned(NotDetected)
  {
  }
}
