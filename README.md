# DS18B20 1-Wire driver, modelled in Dafny

This project models the bit-banged 1-Wire driver for a single DS18B20
temperature sensor in `src/ds18b20.c`. The driver owns one GPIO pin and has
five layers, all modelled here:

- **Line and timing ports** (`dq_output`, `dq_input`, `dq_write`, `dq_read`,
  `k_busy_wait`, `k_msleep`). Each is a method of the `Ds18b20.Driver` class
  that updates the pin state and appends one event to a ghost trace of port
  calls.
- **Bit transport** (`onewire_reset`, `onewire_write_bit`, `onewire_read_bit`).
  Each is a method that appends one fixed slot of events.
- **Byte transport** (`onewire_write_byte`, `onewire_read_byte`). Each is an
  8-iteration loop, proved by loop invariants against the slot sequences
  `OneWire.WriteByteTrace` and `OneWire.ReadByteTrace` and against the value
  `OneWire.ReadByteValue`.
- **The transaction** (`ds18b20_read_temp`). It is proved against
  `Ds18b20.TransactionTrace` and `Ds18b20.TransactionResult`: the events the
  call makes, the value it returns, and how many line samples it consumes.
- **Decode and init.** The decode turns `(msb << 8) | lsb` into a signed
  16-bit register and that into degrees. Init is a readiness check.

What the sensor does is an input oracle: the sequence of values the pin will
report at the coming samples. Once that sequence is used up, the line reads
high, as the pull-up holds it when nothing drives it.

To state what a slot means on the wire, `Bus.Capture` folds a trace the way a
logic analyser on the data line would. It records:

- the widths of the host's low pulses;
- for each sample, the time since the last falling edge and since the last
  release;
- the total elapsed time.

On top of the capture, `Bus.Classify` and `Bus.View` give the sensor's
reading of each pulse:

- at least 480 µs is a reset;
- 1 to 14 µs is a 1 or a read slot;
- 60 to 120 µs is a 0.

Module layout:

- `bus.dfy`, module `Bus`: port events, the capture, and the sensor's view.
- `onewire.dfy`, module `OneWire`: the slots, byte order, read assembly,
  slot timings, and the loopback round trip.
- `temperature.dfy`, module `Temperature`: the register decode, Celsius, and
  the reading the driver reports.
- `ds18b20.dfy`, module `Ds18b20`: the transaction and the driver class.

The result is the datatype `Reading = NotDetected | Temp(raw: int16)`, not a
float. `Temperature.Returned` gives the float the C function hands back:

- The 1/16 °C conversion is exact in real arithmetic, since the divisor is a
  power of two and every `int16` fits a float's mantissa.
- The `-1000.0f` sentinel is not distinct from every decodable value: raw
  `0xC180` (-16000) decodes to -1000 °C as well. The model proves this
  collision, and also that it cannot happen inside the sensor's -55 to
  +125 °C range.

Details of the C code the model keeps:

- **Presence.** Presence is `!dq_read()`, so it holds exactly when the pin
  reports 0. A negative error code from `gpio_pin_get_dt` counts as "no
  presence".
- **Read slots.** A read slot's value is tested with `if (bit)`, so a
  negative error code in a read slot counts as a 1 bit.
- **Sample type.** For these reasons samples are `int`, the value
  `gpio_pin_get_dt` returns, not a `bool` level.

The driver's `line` field is the driver's own record of the pin's mode and
last written level, as its port methods set it. The capture's `line` is an
observer's replay of the same calls from the trace. Both start released and
are updated by the same events, but no contract states that they agree.

## Model

| member | source | states |
|---|---|---|
| Ds18b20.Driver.constructor | src/ds18b20.c:14-15 | The driver is bound to one pin, with no port calls made yet. The C code configures nothing before the first `dq_output`, so the model assumes the pin starts released (input with pull-up, idle high). The lemmas that start from `Bus.Start` rely on this. |
| Ds18b20.Driver.DqOutput | src/ds18b20.c:17-19 | Switches the pin to output and keeps its level; records one output-configuration event. |
| Ds18b20.Driver.DqInput | src/ds18b20.c:20-22 | Switches the pin to input with pull-up, which releases the line; records one input-configuration event. |
| Ds18b20.Driver.DqWrite | src/ds18b20.c:23-25 | Sets the pin level and keeps its mode; records the write. |
| Ds18b20.Driver.DqRead | src/ds18b20.c:26-28 | Returns the next value the pin reports, consumes exactly that one sample, and records the read together with its value. |
| Ds18b20.Driver.BusyWait | src/ds18b20.c:34 | Records a busy wait of the given number of microseconds. |
| Ds18b20.Driver.MSleep | src/ds18b20.c:101 | Records a sleep of the given number of milliseconds. |
| Ds18b20.Driver.Reset | src/ds18b20.c:31-40 | Returns presence iff the one sample it takes reads 0. Consumes one sample, leaves the line released, and appends exactly the reset slot. |
| OneWire.ResetSlotTiming | src/ds18b20.c:31-40 | From a released line the reset slot is one 480 µs low pulse and one sample taken 70 µs after release (550 µs after the falling edge). It lasts 960 µs and leaves the line released. |
| Ds18b20.Driver.WriteBit | src/ds18b20.c:43-55 | Any nonzero argument writes a 1. Appends exactly the write slot of that bit and leaves the line released. |
| OneWire.WriteBitSlotTiming | src/ds18b20.c:43-55 | A 1 is a 6 µs low pulse followed by 64 µs released. A 0 is a 60 µs low pulse followed by 10 µs released. Either way the slot is 70 µs and takes no sample. |
| Ds18b20.Driver.ReadBit | src/ds18b20.c:58-68 | Returns exactly the sampled value, consumes one sample, and appends exactly the read slot of that sample. |
| OneWire.ReadBitSlotTiming | src/ds18b20.c:58-68 | A 6 µs low pulse, one sample 9 µs after release (15 µs after the falling edge), then 55 µs more: a 70 µs slot. |
| Ds18b20.Driver.WriteByte | src/ds18b20.c:71-76 | The loop appends exactly the write slots of the byte's bits, least significant first, and leaves the line released. The invariant ties the shifted copy to `data >> i`. |
| OneWire.ShiftRightStep | src/ds18b20.c:73-74 | The low bit of `data >> i` is bit i of data, and shifting once more gives `data >> (i + 1)`. |
| OneWire.WriteSlotsAt | src/ds18b20.c:72-75 | After n iterations there are 5n events, and slot i is the write slot of bit i. |
| OneWire.WriteByteSlots | src/ds18b20.c:71-76 | Write-byte is exactly 40 events, eight 5-event slots, and slot i carries bit i of the byte. |
| OneWire.WriteSlotsTiming | src/ds18b20.c:72-75 | Writing n bits takes 70n µs, takes no sample, and shows each bit's pulse width in order. |
| OneWire.BitPulses | src/ds18b20.c:72-75 | Pulse i of a written byte is 6 µs if bit i is set and 60 µs otherwise. |
| OneWire.WriteByteTiming | src/ds18b20.c:71-76 | A written byte takes 560 µs, takes no sample, leaves the line released, and shows the bits' pulses in order. |
| OneWire.ByteView | src/ds18b20.c:71-76 | The sensor reads a written byte's pulses as that byte's bits, least significant first, with no reset or invalid symbol among them. |
| Ds18b20.Driver.ReadByte | src/ds18b20.c:79-89 | Returns `ReadByteValue` of the coming samples and consumes eight of them. Appends exactly the eight read slots, the k-th sampling the k-th coming value. The invariant ties the accumulator to `Assemble`. |
| OneWire.ShiftIn | src/ds18b20.c:83-86 | One step of the accumulator: the new top bit is the sample's truth value, and every other bit is the old bit one position up. |
| OneWire.Assemble | src/ds18b20.c:81-87 | After n steps the top n bits hold the n samples read so far, the earliest lowest, and the other bits are clear. |
| OneWire.ReadByteValue | src/ds18b20.c:79-89 | Bit k of the result is set iff the k-th sample is nonzero, for each k in 0..7. |
| OneWire.ReadSlotsAt | src/ds18b20.c:81-87 | After n iterations there are 7n events, and slot k samples the k-th coming value. |
| OneWire.ReadByteSlots | src/ds18b20.c:79-89 | Read-byte is exactly 56 events, eight 7-event read slots, and slot k samples the k-th coming value. |
| OneWire.ReadSlotsTiming | src/ds18b20.c:81-87 | n reads take 70n µs and show n pulses of 6 µs. They take n samples, each 15 µs after its slot's falling edge. |
| OneWire.ReadSamples | src/ds18b20.c:81-87 | The k-th sample of n read slots carries the k-th coming value, taken 15 µs after the falling edge. |
| OneWire.LoopbackRoundTrip | src/ds18b20.c:71-89 | On a loopback line that echoes the host's own pulses, read-byte over the pulses write-byte drives for d gives back d, for every byte d. |
| OneWire.ReadBackBits | src/ds18b20.c:71-89 | Read-byte over the bit levels write-byte sends for d, in the order sent, gives back d, for every byte d. |
| OneWire.BitsDetermineByte | src/ds18b20.c:71-89 | Two bytes agreeing on all eight bits are equal. |
| Temperature.Word | src/ds18b20.c:110 | The 16-bit pattern of a register lies in 0..65535 and is congruent to the register modulo 2^16. |
| Temperature.Raw | src/ds18b20.c:110 | The register's 16-bit pattern is `msb * 256 + lsb`, and the register is negative iff the top bit of msb is set. |
| Temperature.RawInjective | src/ds18b20.c:110 | Distinct (lsb, msb) pairs give distinct registers: the decode loses neither byte. |
| Temperature.Celsius | src/ds18b20.c:111 | The temperature times 16 is the register, and it lies in [-2048, 2048). |
| Temperature.DecodeExamples | src/ds18b20.c:110-111 | 0x0191 is 401, that is 25.0625 °C. 0xFF5E is -162, that is -10.125 °C. 0x0000 is 0 °C. 0xFFFF is -1, that is -0.0625 °C. |
| Temperature.Returned | src/ds18b20.c:95-111 | The float the read hands back: NotDetected is -1000.0, and a register gives the value that times 16 is the register (its Celsius value). |
| Temperature.SentinelOutsideRange | src/ds18b20.c:95 | Within the sensor's -55 to +125 °C range, no temperature equals the not-detected value. |
| Temperature.SentinelIsDecodable | src/ds18b20.c:95 | Register 0xC180 decodes to -16000, and its temperature equals the not-detected value of -1000. |
| Ds18b20.Driver.ReadTemp | src/ds18b20.c:92-112 | Returns `TransactionResult` of the coming samples and appends exactly `TransactionTrace`. Consumes one sample when the first reset sees no presence and 18 otherwise, and leaves the line released. |
| Ds18b20.AbsentStopsAfterReset | src/ds18b20.c:93-96 | No presence at the first reset: the result is NotDetected and the trace is that reset slot and nothing else. The sensor sees one reset pulse; there is one sample, 960 µs in all, and no sleep. |
| Ds18b20.PresentSequence | src/ds18b20.c:98-108 | After a presence, from the released start, the sensor sees, in order: reset, 0xCC, 0x44, reset, 0xCC, 0xBE, then sixteen read slots. There are 18 samples: both presence samples, then the low byte's eight and the high byte's eight. The line is left released, so a further read starts from a released line. The call lasts 755280 µs in all, 750 ms of which is the sleep. The capture does not timestamp pulses, so the sleep's place after the convert command comes from the definition of `ConvertPhase`, not from this lemma. |
| Ds18b20.WholeTransfer | src/ds18b20.c:93-108 | For any command bytes, from any released start: pulses, samples and elapsed time of reset, two commands, sleep, reset, two commands and two byte reads, with the line left released. |
| Ds18b20.ConvertTransfer | src/ds18b20.c:98-101 | From a released line, two command bytes and then the sleep: 1120 µs plus the sleep, no sample, and both bytes' pulses in order. |
| Ds18b20.ConvertPhaseTiming | src/ds18b20.c:98-101 | Skip ROM and convert, then 750 ms: their pulses in order, no sample, and 1120 µs plus 750000 µs. |
| Ds18b20.ReadTransfer | src/ds18b20.c:103-108 | From a released line, the second reset, two commands and two byte reads: a reset pulse, the command pulses, 16 read pulses, the presence sample, and then the 16 data samples. |
| Ds18b20.ReadPhaseTiming | src/ds18b20.c:103-108 | The same for skip ROM and read scratchpad. The low byte's samples come from samples 2..9 and the high byte's from 10..17. |
| Ds18b20.CommandTiming | src/ds18b20.c:98-99 | From a released line, two command bytes back to back: 1120 µs, no sample, the line left released, and the first byte's pulses before the second's. |
| Ds18b20.CommandView | src/ds18b20.c:104-105 | The sensor reads two command bytes' bits in order, each byte least significant bit first. |
| Ds18b20.TransferView | src/ds18b20.c:93-108 | The sensor's symbols for a whole transaction: reset, two bytes, reset, two bytes, then sixteen read-slot starts. |
| Ds18b20.ResultBits | src/ds18b20.c:107-110 | After a presence the result is the register of the low byte whose bits are samples 2..9 and the high byte whose bits are samples 10..17: LSB first, then MSB. |
| Ds18b20.SecondPresenceIgnored | src/ds18b20.c:103 | The second reset's presence sample does not affect the result. |
| Ds18b20.SensorGoneReadsMinusOne | src/ds18b20.c:103-111 | A sensor that answers the first reset and then leaves the bus is still read successfully, as register 0xFFFF: -1, that is -1/16 °C. |
| Ds18b20.Driver.Init | src/ds18b20.c:114-121 | Returns 0 iff the pin is ready and -1 iff it is not; it touches neither the line nor the trace. |

## Left out

- `src/main.c`, the polling loop with its logging and sleeps, is not part of this model: it carries no protocol logic.
- The device-tree binding and its build-time check (`src/ds18b20.c:8-15`) and the logging macros are configuration and diagnostics. They appear only as the driver's `ready` flag.
- The pin's state before the first port call is assumed released (input with pull-up); `src/ds18b20.c:14-15` only binds the pin, and nothing in the model derives the start-up state.
- Real time and the electrical behaviour of the pin. A busy wait or a sleep is a recorded duration, and the port calls themselves take no time in the capture. Delay tolerances and how long the GPIO calls take are not modelled.
- Yielding versus busy waiting, preemption inside a slot, and concurrent access to the pin are scheduler behaviour, not sequential logic.
- The return values of `gpio_pin_configure_dt` and `gpio_pin_set_dt` are discarded by the source, and the model discards them too.
- What the sensor sends is an oracle fixed in advance, not a device that reacts to the commands. Only the loopback round trip models a line that depends on what the host drives.
- Float arithmetic: `raw / 16.0f` is modelled in real arithmetic, which is exact for every 16-bit register.
- The conversion of `(msb << 8) | lsb` to `int16_t` for patterns of 0x8000 and above is implementation-defined in C. Temperature.Raw models the two's-complement wrap.
- Temperature.RawInjective: shows that the decode keeps both bytes. It does not also prove that every `int16` value arises from some byte pair, because that direction needs integer-to-bitvector reasoning the solver cannot do within its resource limit.
- CRC checking, the rest of the scratchpad, and retries do not exist in the source and are not modelled.
