/** The DS18B20 driver: the temperature-read transaction over the
    1-Wire bit and byte transport, and the driver itself, which owns the
    single pin and records every call it makes into the line and timing
    ports. */
module Ds18b20 {
  import opened Bus
  import opened OneWire
  import opened Temperature

  // ---------------------------------------------------------------
  // The transaction
  // ---------------------------------------------------------------

  /** Skip ROM: address the only device on the bus. */
  const SkipRom: byte := 0xCC
  /** Start a temperature conversion. */
  const ConvertT: byte := 0x44
  /** Read the scratchpad, temperature bytes first. */
  const ReadScratchpad: byte := 0xBE
  /** Worst-case conversion time at full resolution, in milliseconds. */
  const ConversionMs: nat := 750

  /** Samples a read consumes: the first reset only, or both resets and 16 data bits. */
  function Consumed(input: seq<int>): nat {
    if SampleAt(input, 0) != 0 then 1 else 18
  }

  /** Skip ROM and start a conversion, then wait out the conversion. */
  function ConvertPhase(): seq<Event> {
    WriteByteTrace(SkipRom) + WriteByteTrace(ConvertT) + [Sleep(ConversionMs)]
  }

  /** The second reset, skip ROM, read scratchpad, and the two byte reads. */
  function ReadPhase(input: seq<int>): seq<Event> {
    ResetSlot(SampleAt(input, 1))
    + (WriteByteTrace(SkipRom) + WriteByteTrace(ReadScratchpad))
    + (ReadByteTrace(Drop(input, 2)) + ReadByteTrace(Drop(input, 10)))
  }

  /** The events of one read-temperature call, given the samples the line will show. */
  function TransactionTrace(input: seq<int>): seq<Event> {
    var first := SampleAt(input, 0);
    if first != 0 then ResetSlot(first)
    else ResetSlot(first) + ConvertPhase() + ReadPhase(input)
  }

  /** The result of one read-temperature call, given the samples the line will show. */
  function TransactionResult(input: seq<int>): Reading {
    if SampleAt(input, 0) != 0 then NotDetected
    else Temp(Raw(ReadByteValue(Drop(input, 2)), ReadByteValue(Drop(input, 10))))
  }

  /** The bits of a byte are the samples from position `from` on, least
      significant first, each set iff its sample is nonzero. */
  ghost predicate BitsAre(d: byte, input: seq<int>, from: nat) {
    forall k :: 0 <= k < 8 ==> Bit(d, k) == (SampleAt(input, from + k) != 0)
  }

  /** After a presence the read reports the register of the low byte
      whose bits are samples 2..9 and the high byte whose bits are
      samples 10..17. */
  lemma ResultBits(input: seq<int>, lsb: byte, msb: byte)
    requires SampleAt(input, 0) == 0
    requires BitsAre(lsb, input, 2) && BitsAre(msb, input, 10)
    ensures TransactionResult(input) == Temp(Raw(lsb, msb))
  {
    var lo, hi := ReadByteValue(Drop(input, 2)), ReadByteValue(Drop(input, 10));
    assert forall k :: 0 <= k < 8 ==> Bit(lo, k) == Bit(lsb, k) && Bit(hi, k) == Bit(msb, k);
    BitsDetermineByte(lo, lsb);
    BitsDetermineByte(hi, msb);
  }

  /** No presence at the first reset: the read reports NotDetected and
      the bus carries that reset and nothing else: no command, no
      conversion sleep, no read. */
  lemma AbsentStopsAfterReset(input: seq<int>)
    requires SampleAt(input, 0) != 0
    ensures TransactionResult(input) == NotDetected
    ensures TransactionTrace(input) == ResetSlot(SampleAt(input, 0))
    ensures var r := Run(Start, TransactionTrace(input));
      && View(r.pulses) == [ResetPulse]
      && |r.samples| == 1
      && r.clock == 960
    ensures forall i :: 0 <= i < |TransactionTrace(input)| ==> !TransactionTrace(input)[i].Sleep?
  {
    ResetSlotTiming(Start, SampleAt(input, 0));
  }

  /** The pulses of two command bytes written one after the other. */
  function CommandPulses(a: byte, b: byte): seq<nat> {
    BitPulses(a, 8) + BitPulses(b, 8)
  }

  /** Two bytes written back to back: 1120 µs, no sample, the line left
      released, and the sensor reads the first byte's bits and then the
      second's, each least significant bit first. */
  lemma CommandTiming(c: Capture, a: byte, b: byte)
    requires Released(c)
    ensures var r := Run(c, WriteByteTrace(a) + WriteByteTrace(b));
      && Released(r)
      && r.pulses == c.pulses + CommandPulses(a, b)
      && r.samples == c.samples
      && r.clock == c.clock + 1120
  {
    WriteByteTiming(c, a);
    WriteByteTiming(Run(c, WriteByteTrace(a)), b);
    RunAppend(c, WriteByteTrace(a), WriteByteTrace(b));
  }

  /** The sensor reads two command bytes' bits in order, each byte least significant bit first. */
  lemma CommandView(a: byte, b: byte)
    ensures View(CommandPulses(a, b)) == ByteSymbols(a) + ByteSymbols(b)
  {
    ByteView(a);
    ByteView(b);
    ViewAppend(BitPulses(a, 8), BitPulses(b, 8));
  }

  lemma ConvertPhaseTiming(c: Capture)
    requires Released(c)
    ensures var r := Run(c, ConvertPhase());
      && Released(r)
      && r.pulses == c.pulses + CommandPulses(SkipRom, ConvertT)
      && r.samples == c.samples
      && r.clock == c.clock + 1120 + ConversionMs * 1000
  {
    ConvertTransfer(c, SkipRom, ConvertT, ConversionMs);
  }

  /** Two command bytes and a sleep, on any capture that starts released. */
  lemma ConvertTransfer(c: Capture, a: byte, b: byte, ms: nat)
    requires Released(c)
    ensures var r := Run(c, WriteByteTrace(a) + WriteByteTrace(b) + [Sleep(ms)]);
      && Released(r)
      && r.pulses == c.pulses + CommandPulses(a, b)
      && r.samples == c.samples
      && r.clock == c.clock + 1120 + ms * 1000
  {
    var w := WriteByteTrace(a) + WriteByteTrace(b);
    CommandTiming(c, a, b);
    RunAppend(c, w, [Sleep(ms)]);
    assert Run(Run(c, w), [Sleep(ms)]) == Step(Run(c, w), Sleep(ms));
  }

  lemma ReadPhaseTiming(c: Capture, input: seq<int>)
    requires Released(c)
    ensures var r := Run(c, ReadPhase(input));
      && Released(r)
      && r.pulses == c.pulses + [480] + CommandPulses(SkipRom, ReadScratchpad) + ReadPulses(16)
      && r.samples == c.samples + [Sample(SampleAt(input, 1), 550, 70)]
                      + (ReadSamples(Drop(input, 2), 8) + ReadSamples(Drop(input, 10), 8))
      && r.clock == c.clock + 960 + 1120 + 1120
  {
    ReadTransfer(c, SampleAt(input, 1), SkipRom, ReadScratchpad, Drop(input, 2), Drop(input, 10));
  }

  /** A reset, two command bytes and two byte reads, on any capture that starts released. */
  lemma ReadTransfer(c: Capture, v: int, a: byte, b: byte, lo: seq<int>, hi: seq<int>)
    requires Released(c)
    ensures var r := Run(c, ResetSlot(v) + (WriteByteTrace(a) + WriteByteTrace(b))
                            + (ReadByteTrace(lo) + ReadByteTrace(hi)));
      && Released(r)
      && r.pulses == c.pulses + [480] + CommandPulses(a, b) + ReadPulses(16)
      && r.samples == c.samples + [Sample(v, 550, 70)] + (ReadSamples(lo, 8) + ReadSamples(hi, 8))
      && r.clock == c.clock + 960 + 1120 + 1120
  {
    var t1 := ResetSlot(v);
    var t2 := WriteByteTrace(a) + WriteByteTrace(b);
    var t3 := ReadByteTrace(lo);
    var t4 := ReadByteTrace(hi);
    ResetSlotTiming(c, v);
    var c1 := Run(c, t1);
    CommandTiming(c1, a, b);
    var c2 := Run(c1, t2);
    ReadSlotsTiming(c2, lo, 8);
    var c3 := Run(c2, t3);
    ReadSlotsTiming(c3, hi, 8);
    RunAppend(c2, t3, t4);
    RunAppend(c, t1, t2);
    RunAppend(c, t1 + t2, t3 + t4);
    assert ReadPulses(16) == ReadPulses(8) + ReadPulses(8);
  }

  /** A reply at the first reset: the sensor sees reset, skip ROM,
      convert, reset, skip ROM, read scratchpad and then sixteen read
      slots, with the 750 ms conversion sleep after the convert command;
      the host takes 18 samples (the two presence samples, 70 µs after
      each reset's release, and sixteen data bits, each 15 µs into its
      slot), and the whole call lasts 755280 µs. */
  lemma PresentSequence(input: seq<int>)
    requires SampleAt(input, 0) == 0
    ensures var r := Run(Start, TransactionTrace(input));
      && Released(r)
      && r.pulses ==
           [480] + CommandPulses(SkipRom, ConvertT)
           + [480] + CommandPulses(SkipRom, ReadScratchpad) + ReadPulses(16)
      && View(r.pulses) ==
           [ResetPulse] + (ByteSymbols(SkipRom) + ByteSymbols(ConvertT))
           + [ResetPulse] + (ByteSymbols(SkipRom) + ByteSymbols(ReadScratchpad))
           + seq(16, i => One)
      && r.samples ==
           [Sample(0, 550, 70), Sample(SampleAt(input, 1), 550, 70)]
           + (ReadSamples(Drop(input, 2), 8) + ReadSamples(Drop(input, 10), 8))
      && r.clock == 2 * 960 + 4 * 560 + ConversionMs * 1000 + 2 * 560
  {
    assert TransactionTrace(input) == ResetSlot(0) + ConvertPhase() + ReadPhase(input);
    WholeTransfer(Start, 0, SampleAt(input, 1), SkipRom, ConvertT, ConversionMs,
      ReadScratchpad, Drop(input, 2), Drop(input, 10));
    TransferView(SkipRom, ConvertT, ReadScratchpad);
  }

  /** Reset, two commands, a sleep, reset, two commands and two byte
      reads, on any capture that starts released, for any command bytes. */
  lemma WholeTransfer(c: Capture, u: int, v: int, a: byte, b: byte, ms: nat, e: byte, lo: seq<int>, hi: seq<int>)
    requires Released(c)
    ensures var r := Run(c, ResetSlot(u)
                            + (WriteByteTrace(a) + WriteByteTrace(b) + [Sleep(ms)])
                            + (ResetSlot(v) + (WriteByteTrace(a) + WriteByteTrace(e))
                               + (ReadByteTrace(lo) + ReadByteTrace(hi))));
      && Released(r)
      && r.pulses == c.pulses + ([480] + CommandPulses(a, b) + [480] + CommandPulses(a, e) + ReadPulses(16))
      && r.samples == c.samples + ([Sample(u, 550, 70), Sample(v, 550, 70)] + (ReadSamples(lo, 8) + ReadSamples(hi, 8)))
      && r.clock == c.clock + 2 * 960 + 4 * 560 + ms * 1000 + 2 * 560
  {
    var t1 := ResetSlot(u);
    var t2 := WriteByteTrace(a) + WriteByteTrace(b) + [Sleep(ms)];
    var t3 := ResetSlot(v) + (WriteByteTrace(a) + WriteByteTrace(e)) + (ReadByteTrace(lo) + ReadByteTrace(hi));
    ResetSlotTiming(c, u);
    var c1 := Run(c, t1);
    ConvertTransfer(c1, a, b, ms);
    var c2 := Run(c1, t2);
    ReadTransfer(c2, v, a, e, lo, hi);
    RunAppend(c, t1, t2);
    RunAppend(c, t1 + t2, t3);
    Assoc5(c.pulses, [480], CommandPulses(a, b), [480], CommandPulses(a, e), ReadPulses(16));
    var s := [Sample(u, 550, 70)];
    var s' := [Sample(v, 550, 70)];
    Assoc3(c.samples, s, s', ReadSamples(lo, 8) + ReadSamples(hi, 8));
    assert s + s' == [Sample(u, 550, 70), Sample(v, 550, 70)];
  }

  /** The symbols a sensor reads from the pulses of a whole transaction. */
  lemma TransferView(a: byte, b: byte, e: byte)
    ensures View([480] + CommandPulses(a, b) + [480] + CommandPulses(a, e) + ReadPulses(16)) ==
           [ResetPulse] + (ByteSymbols(a) + ByteSymbols(b))
           + [ResetPulse] + (ByteSymbols(a) + ByteSymbols(e))
           + seq(16, i => One)
  {
    var p1 := [480] + CommandPulses(a, b);
    var p2 := p1 + [480];
    var p3 := p2 + CommandPulses(a, e);
    CommandView(a, b);
    CommandView(a, e);
    ViewAppend([480], CommandPulses(a, b));
    ViewAppend(p1, [480]);
    ViewAppend(p2, CommandPulses(a, e));
    ViewAppend(p3, ReadPulses(16));
    assert View(ReadPulses(16)) == seq(16, i => One);
  }

  /** The presence sample of the second reset is not acted upon: the
      result does not depend on it. */
  lemma SecondPresenceIgnored(input: seq<int>, v: int)
    requires |input| >= 2 && input[0] == 0
    ensures TransactionResult(input[1 := v]) == TransactionResult(input)
  {
    var other := input[1 := v];
    assert Drop(other, 2) == Drop(input, 2);
    assert Drop(other, 10) == Drop(input, 10);
  }

  /** A sensor that answers the first reset and then leaves the bus
      presents only the idle high level: the read still succeeds, with
      register 0xFFFF, that is -1/16 °C. */
  lemma SensorGoneReadsMinusOne()
    ensures TransactionResult([0]) == Temp(-1)
  {
    var lsb := ReadByteValue(Drop([0], 2));
    var msb := ReadByteValue(Drop([0], 10));
    forall k | 0 <= k < 8 ensures Bit(lsb, k) == Bit(0xFF, k) && Bit(msb, k) == Bit(0xFF, k) {
    }
    BitsDetermineByte(lsb, 0xFF);
    BitsDetermineByte(msb, 0xFF);
  }

  lemma Assoc3<T>(t: seq<T>, a: seq<T>, b: seq<T>, c: seq<T>)
    ensures t + a + b + c == t + (a + b + c)
  {
  }

  lemma Assoc5<T>(t: seq<T>, a: seq<T>, b: seq<T>, c: seq<T>, d: seq<T>, e: seq<T>)
    ensures t + a + b + c + d + e == t + (a + (b + c) + (d + e))
    ensures t + a + b + c + d + e == t + (a + b + c + d + e)
  {
  }

  // ---------------------------------------------------------------
  // The driver
  // ---------------------------------------------------------------

  /** The driver instance bound to the sensor's pin. Its `line` is the
      pin's mode and level, `input` the values the pin will report at the
      coming samples (what the sensor presents), and `trace` every call
      made into the line and timing ports so far. */
  class Driver {
    /** Whether the pin's GPIO controller reports itself ready. */
    const ready: bool
    var line: Line
    var input: seq<int>
    ghost var trace: seq<Event>

    constructor (ready: bool, input: seq<int>)
      ensures this.ready == ready && this.input == input
      ensures line == Line(Input, Idle) && trace == []
    {
      this.ready := ready;
      this.input := input;
      line := Line(Input, Idle);
      trace := [];
    }

    // Line and timing ports

    /** Configure the pin as an output. */
    method DqOutput()
      modifies this`line, this`trace
      ensures line == Line(Output, old(line).level)
      ensures trace == old(trace) + [ConfigOutput]
    {
      line := line.(mode := Output);
      trace := trace + [ConfigOutput];
    }

    /** Configure the pin as an input with pull-up, releasing the line. */
    method DqInput()
      modifies this`line, this`trace
      ensures line == Line(Input, old(line).level)
      ensures trace == old(trace) + [ConfigInput]
    {
      line := line.(mode := Input);
      trace := trace + [ConfigInput];
    }

    /** Set the pin's output level. */
    method DqWrite(val: int)
      modifies this`line, this`trace
      ensures line == Line(old(line).mode, val)
      ensures trace == old(trace) + [Write(val)]
    {
      line := line.(level := val);
      trace := trace + [Write(val)];
    }

    /** Sample the pin: the value the sensor presents next. */
    method DqRead() returns (v: int)
      modifies this`input, this`trace
      ensures v == SampleAt(old(input), 0)
      ensures input == Drop(old(input), 1)
      ensures trace == old(trace) + [Read(v)]
    {
      v := SampleAt(input, 0);
      input := Drop(input, 1);
      trace := trace + [Read(v)];
    }

    /** Busy-wait for us microseconds. */
    method BusyWait(us: nat)
      modifies this`trace
      ensures trace == old(trace) + [Event.BusyWait(us)]
    {
      trace := trace + [Event.BusyWait(us)];
    }

    /** Sleep, yielding, for ms milliseconds. */
    method MSleep(ms: nat)
      modifies this`trace
      ensures trace == old(trace) + [Sleep(ms)]
    {
      trace := trace + [Sleep(ms)];
    }

    // Bit transport

    /** Reset the bus and detect a presence pulse: present iff the line reads low. */
    method Reset() returns (presence: bool)
      modifies this`line, this`input, this`trace
      ensures presence <==> SampleAt(old(input), 0) == 0
      ensures input == Drop(old(input), 1)
      ensures line == Line(Input, 0)
      ensures trace == old(trace) + ResetSlot(SampleAt(old(input), 0))
    {
      DqOutput();
      DqWrite(0);
      BusyWait(480);
      DqInput();
      BusyWait(70);
      var v := DqRead();
      presence := v == 0;
      BusyWait(410);
    }

    /** Write one bit; any nonzero value is a 1. */
    method WriteBit(bit: int)
      modifies this`line, this`trace
      ensures line == Line(Input, 0)
      ensures trace == old(trace) + WriteBitSlot(bit != 0)
    {
      DqOutput();
      DqWrite(0);
      if bit != 0 {
        BusyWait(6);
        DqInput();
        BusyWait(64);
      } else {
        BusyWait(60);
        DqInput();
        BusyWait(10);
      }
    }

    /** Read one bit: exactly the value the pin reports at the sample. */
    method ReadBit() returns (bit: int)
      modifies this`line, this`input, this`trace
      ensures bit == SampleAt(old(input), 0)
      ensures input == Drop(old(input), 1)
      ensures line == Line(Input, 0)
      ensures trace == old(trace) + ReadBitSlot(bit)
    {
      DqOutput();
      DqWrite(0);
      BusyWait(6);
      DqInput();
      BusyWait(9);
      bit := DqRead();
      BusyWait(55);
    }

    // Byte transport

    /** Write a byte, least significant bit first. */
    method WriteByte(data: byte)
      modifies this`line, this`trace
      ensures line == Line(Input, 0)
      ensures trace == old(trace) + WriteByteTrace(data)
    {
      var d := data;
      for i := 0 to 8
        invariant d == data >> i
        invariant trace == old(trace) + WriteSlots(data, i)
        invariant i > 0 ==> line == Line(Input, 0)
      {
        ShiftRightStep(data, i);
        WriteBit((d & 1) as int);
        d := d >> 1;
      }
    }

    /** Read a byte: the first bit read becomes bit 0. */
    method ReadByte() returns (data: byte)
      modifies this`line, this`input, this`trace
      ensures data == ReadByteValue(old(input))
      ensures input == Drop(old(input), 8)
      ensures line == Line(Input, 0)
      ensures trace == old(trace) + ReadByteTrace(old(input))
    {
      data := 0;
      for i := 0 to 8
        invariant data == Assemble(old(input), i)
        invariant input == Drop(old(input), i)
        invariant trace == old(trace) + ReadSlots(old(input), i)
        invariant i > 0 ==> line == Line(Input, 0)
      {
        ghost var acc := data;
        var bit := ReadBit();
        assert bit == SampleAt(old(input), i);
        DropDrop(old(input), i, 1);
        data := data >> 1;
        if bit != 0 {
          data := data | 0x80;
        }
        assert data == ShiftIn(acc, bit != 0);
      }
    }

    // The transaction

    /** One temperature read: reset; on no presence stop with
      NotDetected; otherwise skip ROM and convert, sleep 750 ms, reset
      again (ignoring its presence), skip ROM and read scratchpad, and
      read the low and then the high byte of the register. */
    method ReadTemp() returns (r: Reading)
      modifies this`line, this`input, this`trace
      ensures r == TransactionResult(old(input))
      ensures trace == old(trace) + TransactionTrace(old(input))
      ensures input == Drop(old(input), Consumed(old(input)))
      ensures line == Line(Input, 0)
    {
      ghost var t0, in0 := trace, input;
      var present := Reset();
      if !present {
        r := NotDetected;
        return;
      }
      ghost var t1 := trace;
      WriteByte(SkipRom);
      WriteByte(ConvertT);
      MSleep(ConversionMs);
      assert trace == t1 + ConvertPhase() by {
        Assoc3(t1, WriteByteTrace(SkipRom), WriteByteTrace(ConvertT), [Sleep(ConversionMs)]);
      }
      ghost var t2 := trace;
      var ignored := Reset();
      assert input == Drop(in0, 2) by { DropDrop(in0, 1, 1); }
      ghost var t3 := trace;
      WriteByte(SkipRom);
      WriteByte(ReadScratchpad);
      ghost var t4 := trace;
      var lsb := ReadByte();
      assert input == Drop(in0, 10) by { DropDrop(in0, 2, 8); }
      var msb := ReadByte();
      assert input == Drop(in0, 18) by { DropDrop(in0, 10, 8); }
      assert trace == t2 + ReadPhase(in0) by {
        assert t3 == t2 + ResetSlot(SampleAt(in0, 1));
        assert t4 == t3 + WriteByteTrace(SkipRom) + WriteByteTrace(ReadScratchpad);
        assert trace == t4 + ReadByteTrace(Drop(in0, 2)) + ReadByteTrace(Drop(in0, 10));
        Assoc5(t2, ResetSlot(SampleAt(in0, 1)), WriteByteTrace(SkipRom), WriteByteTrace(ReadScratchpad),
          ReadByteTrace(Drop(in0, 2)), ReadByteTrace(Drop(in0, 10)));
      }
      assert trace == t0 + TransactionTrace(in0) by {
        Assoc3(t0, ResetSlot(0), ConvertPhase(), ReadPhase(in0));
      }
      r := Temp(Raw(lsb, msb));
    }

    /** Driver initialisation: 0 when the pin is ready, -1 when it is
      not; the line is not touched either way. */
    method Init() returns (rc: int)
      ensures rc == 0 <==> ready
      ensures rc == -1 <==> !ready
    {
      if !ready {
        return -1;
      }
      return 0;
    }
  }
}
