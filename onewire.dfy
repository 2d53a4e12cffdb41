/** Bit and byte transport of the 1-Wire bus: the events each time slot
    consists of, the order in which a byte's bits are sent and
    assembled, and what a sensor and a capture of the line see of them. */
module OneWire {
  import opened Bus

  /** The driver's uint8_t. */
  type byte = bv8

  // ---------------------------------------------------------------
  // The line samples: what the sensor presents, one value per read
  // ---------------------------------------------------------------

  /** The value the i-th coming sample reads: what the sensor presents,
      or the idle high level of the pulled-up line once it presents nothing. */
  function SampleAt(input: seq<int>, i: nat): int {
    if i < |input| then input[i] else Idle
  }

  /** The samples left after n have been taken. */
  function Drop(input: seq<int>, n: nat): (r: seq<int>)
    ensures forall k: nat :: SampleAt(r, k) == SampleAt(input, n + k)
  {
    if n <= |input| then input[n..] else []
  }

  lemma DropDrop(input: seq<int>, a: nat, b: nat)
    ensures Drop(Drop(input, a), b) == Drop(input, a + b)
  {
  }

  // ---------------------------------------------------------------
  // Bit transport: one time slot each
  // ---------------------------------------------------------------

  /** Reset and presence detect: hold the line low 480 µs, release it,
      sample it 70 µs later, then let the remaining 410 µs of the slot pass. */
  function ResetSlot(sample: int): seq<Event> {
    [ConfigOutput, Write(0), BusyWait(480), ConfigInput, BusyWait(70), Read(sample), BusyWait(410)]
  }

  /** Write one bit: a short (6 µs) low pulse for a 1, a long (60 µs) one for a 0. */
  function WriteBitSlot(one: bool): seq<Event> {
    if one then [ConfigOutput, Write(0), BusyWait(6), ConfigInput, BusyWait(64)]
    else [ConfigOutput, Write(0), BusyWait(60), ConfigInput, BusyWait(10)]
  }

  /** Read one bit: a 6 µs low pulse opens the slot, the line is sampled
      9 µs after its release, and 55 µs more end the slot. */
  function ReadBitSlot(sample: int): seq<Event> {
    [ConfigOutput, Write(0), BusyWait(6), ConfigInput, BusyWait(9), Read(sample), BusyWait(55)]
  }

  // ---------------------------------------------------------------
  // Bits of a byte
  // ---------------------------------------------------------------

  /** Bit k of d, bit 0 being the least significant. */
  function Bit(d: byte, k: nat): bool
    requires k < 8
  {
    (d >> k) & 1 == 1
  }

  /** A byte is determined by its eight bits. */
  lemma BitsDetermineByte(a: byte, b: byte)
    requires forall k :: 0 <= k < 8 ==> Bit(a, k) == Bit(b, k)
    ensures a == b
  {
    assert Bit(a, 0) == Bit(b, 0) && Bit(a, 1) == Bit(b, 1);
    assert Bit(a, 2) == Bit(b, 2) && Bit(a, 3) == Bit(b, 3);
    assert Bit(a, 4) == Bit(b, 4) && Bit(a, 5) == Bit(b, 5);
    assert Bit(a, 6) == Bit(b, 6) && Bit(a, 7) == Bit(b, 7);
  }

  /** Shifting right by one more position moves the next bit into bit 0. */
  lemma ShiftRightStep(d: byte, i: nat)
    requires i < 8
    ensures (d >> i) >> 1 == d >> (i + 1)
    ensures ((d >> i) & 1 == 1) == Bit(d, i)
  {
  }

  /** Shifting an accumulator right and setting its top bit for a 1. */
  function ShiftIn(acc: byte, one: bool): (r: byte)
    ensures Bit(r, 7) == one
    ensures forall k :: 0 <= k < 7 ==> Bit(r, k) == Bit(acc, k + 1)
  {
    if one then (acc >> 1) | 0x80 else acc >> 1
  }

  // ---------------------------------------------------------------
  // Byte transport
  // ---------------------------------------------------------------

  /** The slots that write the lowest n bits of d, lowest bit first. */
  function WriteSlots(d: byte, n: nat): seq<Event>
    requires n <= 8
  {
    if n == 0 then [] else WriteSlots(d, n - 1) + WriteBitSlot(Bit(d, n - 1))
  }

  /** The eight slots that write one byte. */
  function WriteByteTrace(d: byte): seq<Event> {
    WriteSlots(d, 8)
  }

  /** The first n read slots, the k-th one reading the k-th coming sample. */
  function ReadSlots(input: seq<int>, n: nat): seq<Event> {
    if n == 0 then [] else ReadSlots(input, n - 1) + ReadBitSlot(SampleAt(input, n - 1))
  }

  /** The eight slots that read one byte. */
  function ReadByteTrace(input: seq<int>): seq<Event> {
    ReadSlots(input, 8)
  }

  /** The accumulator of the read-byte loop after n slots: each sample
      shifts it right and a nonzero sample sets its top bit. The samples
      read so far occupy the top n bits, the earliest lowest. */
  function Assemble(input: seq<int>, n: nat): (r: byte)
    requires n <= 8
    ensures forall k :: 0 <= k < 8 ==>
      Bit(r, k) == (8 - n <= k && SampleAt(input, k - (8 - n)) != 0)
  {
    if n == 0 then 0 else ShiftIn(Assemble(input, n - 1), SampleAt(input, n - 1) != 0)
  }

  /** The byte the read-byte loop returns: bit k is set iff the k-th sample is nonzero. */
  function ReadByteValue(input: seq<int>): (r: byte)
    ensures forall k :: 0 <= k < 8 ==> Bit(r, k) == (SampleAt(input, k) != 0)
  {
    Assemble(input, 8)
  }

  /** Slot i of a written byte carries bit i: the byte goes out least significant bit first. */
  lemma {:induction false} WriteSlotsAt(d: byte, n: nat, i: nat)
    requires i < n <= 8
    ensures |WriteSlots(d, n)| == 5 * n
    ensures WriteSlots(d, n)[5 * i .. 5 * i + 5] == WriteBitSlot(Bit(d, i))
  {
    WriteSlotsLength(d, n - 1);
    if i < n - 1 {
      WriteSlotsAt(d, n - 1, i);
      assert WriteSlots(d, n)[5 * i .. 5 * i + 5] == WriteSlots(d, n - 1)[5 * i .. 5 * i + 5];
    } else {
      assert WriteSlots(d, n)[5 * i .. 5 * i + 5] == WriteBitSlot(Bit(d, n - 1));
    }
  }

  lemma {:induction false} WriteSlotsLength(d: byte, n: nat)
    requires n <= 8
    ensures |WriteSlots(d, n)| == 5 * n
  {
    if n > 0 {
      WriteSlotsLength(d, n - 1);
    }
  }

  /** Write-byte is exactly eight write slots, slot i carrying bit i of the byte. */
  lemma WriteByteSlots(d: byte)
    ensures |WriteByteTrace(d)| == 40
    ensures forall i :: 0 <= i < 8 ==> WriteByteTrace(d)[5 * i .. 5 * i + 5] == WriteBitSlot(Bit(d, i))
  {
    WriteSlotsLength(d, 8);
    forall i | 0 <= i < 8
      ensures WriteByteTrace(d)[5 * i .. 5 * i + 5] == WriteBitSlot(Bit(d, i))
    {
      WriteSlotsAt(d, 8, i);
    }
  }

  lemma {:induction false} ReadSlotsLength(input: seq<int>, n: nat)
    ensures |ReadSlots(input, n)| == 7 * n
  {
    if n > 0 {
      ReadSlotsLength(input, n - 1);
    }
  }

  /** Read slot k of the n reads the k-th coming sample. */
  lemma {:induction false} ReadSlotsAt(input: seq<int>, n: nat, k: nat)
    requires k < n
    ensures |ReadSlots(input, n)| == 7 * n
    ensures ReadSlots(input, n)[7 * k .. 7 * k + 7] == ReadBitSlot(SampleAt(input, k))
  {
    ReadSlotsLength(input, n - 1);
    if k < n - 1 {
      ReadSlotsAt(input, n - 1, k);
      assert ReadSlots(input, n)[7 * k .. 7 * k + 7] == ReadSlots(input, n - 1)[7 * k .. 7 * k + 7];
    } else {
      assert ReadSlots(input, n)[7 * k .. 7 * k + 7] == ReadBitSlot(SampleAt(input, n - 1));
    }
  }

  /** Read-byte is exactly eight read slots, slot k sampling the k-th coming sample. */
  lemma ReadByteSlots(input: seq<int>)
    ensures |ReadByteTrace(input)| == 56
    ensures forall k :: 0 <= k < 8 ==>
      ReadByteTrace(input)[7 * k .. 7 * k + 7] == ReadBitSlot(SampleAt(input, k))
  {
    ReadSlotsLength(input, 8);
    forall k | 0 <= k < 8
      ensures ReadByteTrace(input)[7 * k .. 7 * k + 7] == ReadBitSlot(SampleAt(input, k))
    {
      ReadSlotsAt(input, 8, k);
    }
  }

  // ---------------------------------------------------------------
  // What the line shows: slot timings
  // ---------------------------------------------------------------

  /** A reset slot, from a released line: one 480 µs low pulse, the
      sample taken 70 µs after the release, 960 µs in all, and the line
      left released. */
  lemma ResetSlotTiming(c: Capture, v: int)
    requires Released(c)
    ensures var r := Run(c, ResetSlot(v));
      && r.line == Line(Input, 0)
      && r.pulses == c.pulses + [480]
      && r.samples == c.samples + [Sample(v, 550, 70)]
      && r.clock == c.clock + 960
      && r.sinceRise == 480
  {
    RunSeven(c, ResetSlot(v));
  }

  /** A write slot, from a released line: a 6 µs low pulse then 64 µs
      released for a 1, a 60 µs low pulse then 10 µs released for a 0;
      70 µs in all either way, no sample, and the line left released. */
  lemma WriteBitSlotTiming(c: Capture, one: bool)
    requires Released(c)
    ensures var r := Run(c, WriteBitSlot(one));
      && r.line == Line(Input, 0)
      && r.pulses == c.pulses + [if one then 6 else 60]
      && r.samples == c.samples
      && r.clock == c.clock + 70
      && r.sinceRise == (if one then 64 else 10)
  {
    RunFive(c, WriteBitSlot(one));
  }

  /** A read slot, from a released line: a 6 µs low pulse, one sample
      taken 15 µs after the falling edge (9 µs after the release), 70 µs
      in all, and the line left released. */
  lemma ReadBitSlotTiming(c: Capture, v: int)
    requires Released(c)
    ensures var r := Run(c, ReadBitSlot(v));
      && r.line == Line(Input, 0)
      && r.pulses == c.pulses + [6]
      && r.samples == c.samples + [Sample(v, 15, 9)]
      && r.clock == c.clock + 70
      && r.sinceRise == 64
  {
    RunSeven(c, ReadBitSlot(v));
  }

  /** The low pulses of the slots writing the lowest n bits of d. */
  function BitPulses(d: byte, n: nat): (p: seq<nat>)
    requires n <= 8
    ensures |p| == n
    ensures forall i :: 0 <= i < n ==> p[i] == if Bit(d, i) then 6 else 60
  {
    if n == 0 then [] else BitPulses(d, n - 1) + [if Bit(d, n - 1) then 6 else 60]
  }

  /** n read slots: n pulses of 6 µs. */
  function ReadPulses(n: nat): (p: seq<nat>)
    ensures |p| == n
    ensures forall i :: 0 <= i < n ==> p[i] == 6
  {
    seq(n, i => 6)
  }

  /** The samples of n read slots, each taken 15 µs after its slot's falling edge. */
  function ReadSamples(input: seq<int>, n: nat): (s: seq<Sample>)
    ensures |s| == n
    ensures forall k :: 0 <= k < n ==> s[k] == Sample(SampleAt(input, k), 15, 9)
  {
    if n == 0 then [] else ReadSamples(input, n - 1) + [Sample(SampleAt(input, n - 1), 15, 9)]
  }

  /** Writing bits takes 70 µs per bit, leaves a released line, samples
      nothing, and shows the line the bits' pulses in order. */
  lemma {:induction false} WriteSlotsTiming(c: Capture, d: byte, n: nat)
    requires Released(c) && n <= 8
    ensures var r := Run(c, WriteSlots(d, n));
      && Released(r)
      && r.pulses == c.pulses + BitPulses(d, n)
      && r.samples == c.samples
      && r.clock == c.clock + 70 * n
  {
    if n > 0 {
      RunAppend(c, WriteSlots(d, n - 1), WriteBitSlot(Bit(d, n - 1)));
      WriteSlotsTiming(c, d, n - 1);
      WriteBitSlotTiming(Run(c, WriteSlots(d, n - 1)), Bit(d, n - 1));
    }
  }

  /** Reading bits takes 70 µs per bit, leaves a released line, shows a
      6 µs pulse per bit and takes one sample per bit, 15 µs into its slot. */
  lemma {:induction false} ReadSlotsTiming(c: Capture, input: seq<int>, n: nat)
    requires Released(c)
    ensures var r := Run(c, ReadSlots(input, n));
      && Released(r)
      && r.pulses == c.pulses + ReadPulses(n)
      && r.samples == c.samples + ReadSamples(input, n)
      && r.clock == c.clock + 70 * n
  {
    if n > 0 {
      RunAppend(c, ReadSlots(input, n - 1), ReadBitSlot(SampleAt(input, n - 1)));
      ReadSlotsTiming(c, input, n - 1);
      ReadBitSlotTiming(Run(c, ReadSlots(input, n - 1)), SampleAt(input, n - 1));
      assert ReadPulses(n) == ReadPulses(n - 1) + [6];
    }
  }

  /** The symbols a sensor reads when a byte is written: its bits, least significant first. */
  function ByteSymbols(d: byte): (s: seq<Symbol>)
    ensures |s| == 8
    ensures forall i :: 0 <= i < 8 ==> s[i] == if Bit(d, i) then One else Zero
  {
    seq(8, i requires 0 <= i < 8 => if Bit(d, i) then One else Zero)
  }

  /** What a sensor reads off the pulses of a written byte: its bits,
      least significant first, and no other symbol. */
  lemma ByteView(d: byte)
    ensures View(BitPulses(d, 8)) == ByteSymbols(d)
  {
  }

  /** Writing a byte, from a released line: 560 µs, no sample, the line
      left released, and the pulses of the byte's bits in order. */
  lemma WriteByteTiming(c: Capture, d: byte)
    requires Released(c)
    ensures var r := Run(c, WriteByteTrace(d));
      && Released(r)
      && r.pulses == c.pulses + BitPulses(d, 8)
      && r.samples == c.samples
      && r.clock == c.clock + 560
  {
    WriteSlotsTiming(c, d, 8);
  }

  // ---------------------------------------------------------------
  // Round trip through a loopback line
  // ---------------------------------------------------------------

  /** The level a read slot's sample (15 µs after its falling edge)
      finds on a loopback line that repeats a host pulse of width us. */
  function EchoLevel(us: nat): (v: int)
    ensures v == 0 <==> us > 15
  {
    if us > 15 then 0 else Idle
  }

  /** The samples a loopback line gives back for a train of host pulses. */
  function Echo(pulses: seq<nat>): (s: seq<int>)
    ensures |s| == |pulses|
    ensures forall i :: 0 <= i < |pulses| ==> s[i] == EchoLevel(pulses[i])
  {
    seq(|pulses|, i requires 0 <= i < |pulses| => EchoLevel(pulses[i]))
  }

  /** Reading back, through a loopback line, the pulses that write-byte
      drives for d gives d again, for every byte d. */
  lemma LoopbackRoundTrip(d: byte)
    ensures ReadByteValue(Echo(Run(Start, WriteByteTrace(d)).pulses)) == d
  {
    WriteByteTiming(Start, d);
    var back := Echo(Run(Start, WriteByteTrace(d)).pulses);
    assert back == Echo(BitPulses(d, 8));
    forall k | 0 <= k < 8 ensures Bit(ReadByteValue(back), k) == Bit(d, k) {
      assert SampleAt(back, k) == back[k];
    }
    BitsDetermineByte(ReadByteValue(back), d);
  }

  /** The sample sequence write-byte's bits stand for: 1 for a 1 bit, 0 for a 0 bit. */
  function BitLevels(d: byte): (s: seq<int>)
    ensures |s| == 8
    ensures forall i :: 0 <= i < 8 ==> s[i] == if Bit(d, i) then 1 else 0
  {
    seq(8, i requires 0 <= i < 8 => if Bit(d, i) then 1 else 0)
  }

  /** Read-byte over the bit sequence of d, in the order write-byte sends it, assembles d. */
  lemma ReadBackBits(d: byte)
    ensures ReadByteValue(BitLevels(d)) == d
  {
    forall k | 0 <= k < 8 ensures Bit(ReadByteValue(BitLevels(d)), k) == Bit(d, k) {
      assert SampleAt(BitLevels(d), k) == BitLevels(d)[k];
    }
    BitsDetermineByte(ReadByteValue(BitLevels(d)), d);
  }
}
