# 1-Wire bus master, modelled in Dafny

This project models the 1-Wire bus master engine of an AVR firmware:
- the write slot (`send_bit`) and the read slot (`read_bit`);
- the reset/presence sequence (`WIRE_reset`);
- the byte routines (`WIRE_send_byte`, `WIRE_read_byte`);
- the empty configuration entry point (`WIRE_configure`);
- the eight timing constants.

The master never sees the bus directly. It changes the pin's mode (driven low or floating), busy-waits, reads the pin, and disables or enables interrupts around each bit slot. The model records each of those actions as an event. Each driver routine is a method of the class `OneWire.Master`. Its state is:
- the pin mode;
- the global interrupt flag;
- the trace of events so far;
- a script of the levels the pull-up or a device presents at the next reads.

Every driver routine but `Configure` is proved to append exactly its specification sequence to the trace; `Configure` appends nothing, and each of the five primitives appends one event. These sequences are defined in module `Slots`: a write slot, a read slot, the reset sequence, and eight slots with their recovery delays for a byte. Lemmas then prove what those sequences mean on the bus:
- the waveform, through `Bus.LineAt`, which gives the line mode at a given microsecond;
- critical-section discipline (`Bus.Atomic`);
- the sampled levels;
- the byte round trips.

Modules:
- `Bits`: bytes as eight bits, least-significant first.
  - `BitOf`, `BitsOf` and `FromBits`.
  - The one-place-at-a-time forms of the shifts the C code writes: `Shifted` for `b >> i` and `Mask` for `1 << i`.
- `Bus`: line modes, events, and the replay functions over a trace.
- `Slots`: the timing constants and the event sequence each routine must produce, with the lemmas about them.
- `OneWire`: the `Master` class. It holds the driver's routines and the primitives they call.

The delays are passed to the master as a `Timing` value because the source's own TODO (source/1wire.c:34-38) questions the 45 µs presence wait. `Slots.DefaultTiming` holds the constants of source/1wire.c:32-45, and no lemma depends on the presence wait.

## Model

| member | source | states |
|---|---|---|
| Slots.DefaultWriteWindow | source/1wire.c:32-45 | With the shipped constants, a device sampling each write slot anywhere from 5 µs to 85 µs after it opens reassembles the byte that was sent. |
| Slots.SendBitSlot | source/1wire.c:47-62 | A write slot is one critical section: `Cli` first, `Sei` last, none in between. It drives the line low first, releases it last, and takes no sample. |
| Slots.SendBitWaveform | source/1wire.c:47-62 | From any starting mode, the line is low for the slot-init time. Through the hold it is low exactly when the bit is 0, and after that it is released. The slot takes no sample and lasts slot-init plus hold. |
| OneWire.Master.SendBit | source/1wire.c:47-62 | Appends exactly the write slot for `bit`. Leaves the line released and interrupts enabled, whatever the flag was before. The script is untouched. |
| Slots.ReadBitSlot | source/1wire.c:64-76 | A read slot is one critical section of seven events. It drives the line low, then releases it, then takes exactly one sample (event 5). |
| Slots.ReadBitWaveform | source/1wire.c:64-76 | The line is low only during the read-slot-init time. The one sample is taken with the line released, read-init plus wait-to-sample µs into the slot, and no time passes after it. |
| OneWire.Master.ReadBit | source/1wire.c:64-76 | Returns the next scripted level as it is, high when the script is exhausted, and consumes it. Appends the read slot for that level and leaves the line released with interrupts enabled. |
| Slots.ResetSequence | source/1wire.c:78-93 | The reset sequence never touches the interrupt flag. It drives the line low, releases it, samples once (event 4), and ends with the post-presence wait. |
| Slots.ResetWaveform | source/1wire.c:78-93 | The line is low for the reset pulse and released afterwards. The sample is taken reset-pulse plus wait-for-presence µs in, with the line released. |
| Slots.NoControlKeepsFlag | source/1wire.c:78-93 | A sequence with no `Cli`/`Sei` leaves the interrupt flag as it found it. |
| OneWire.Master.Reset | source/1wire.c:78-93 | Returns the negation of the sampled level: a device is present exactly when the line reads low, and never when the script is empty (pull-up high). Appends the reset sequence, ending with the post-presence delay. Leaves the line released and the interrupt flag as it was. |
| Slots.BracketedAtomic | source/1wire.c:49-61 | In any critical section, every mode change and sample happens with interrupts disabled, and the section ends with them enabled, from either starting flag. |
| Bits.ShiftedIsShift | source/1wire.c:97-103 | Shifting the copy right once per slot gives `b >> i` before slot `i`. |
| OneWire.Master.SendByte | source/1wire.c:95-106 | The loop keeps `tmp == b >> i` (as `Shifted`). Appends eight write slots carrying bits 0..7 of `b`, least significant first, each followed by one recovery delay. Leaves the line released and interrupts enabled. |
| Slots.WriteTrace | source/1wire.c:95-106 | A byte write's trace has every mode change inside a critical section and one critical section per bit. It samples nothing and ends released with interrupts enabled. |
| Slots.WriteSlotsObserved | source/1wire.c:95-106 | A device sampling every write slot inside its sampling window reads exactly the bits sent, in order. |
| Slots.WriteByteObserved | source/1wire.c:95-106 | A byte write is eight slots, and the bits a device samples in the window reassemble the byte sent. |
| Bits.MaskIsShift | source/1wire.c:117 | `Mask(i)` is `1 << i`, the bit OR-ed into the result. |
| Bits.FromBitsBit | source/1wire.c:110-121 | Bit `i` of the assembled byte is level `i` when there is one, and clear otherwise. |
| Bits.FromBitsPrefixStep | source/1wire.c:112-120 | The loop step: one more level ORs in `Mask(i)` exactly when it is high, and otherwise leaves the byte as it was. |
| Bits.BitOfOrMask | source/1wire.c:117 | OR-ing `1 << n` into the result sets bit `n` and leaves every other bit unchanged. |
| OneWire.Master.ReadByte | source/1wire.c:108-122 | Appends eight read slots with recovery delays and consumes eight scripted levels. Returns the byte whose bit `i` is the level sampled in slot `i`, which is also the bits of the samples in the appended trace. Leaves the line released and interrupts enabled. |
| Slots.ReadTrace | source/1wire.c:108-122 | A byte read's trace has every mode change and sample inside a critical section and one critical section per level. Its samples are exactly the levels, in order, and it ends released with interrupts enabled. |
| Slots.ReadByteSamples | source/1wire.c:108-122 | The byte returned carries, bit by bit, the levels sampled in the read slots. |
| Slots.ReadByteRoundTrip | source/1wire.c:108-122 | Against a device that answers with the bits of `b`, least significant first, a byte read returns `b`. |
| Slots.WriteReadLoopback | source/1wire.c:95-122 | A byte written, sampled by a device within each window and played back to a byte read, comes back unchanged. |
| Bits.FromBitsOfBits | source/1wire.c:95-122 | Splitting a byte into its eight bits and reassembling them gives the byte back. |
| Bits.BitsOfFromBits | source/1wire.c:108-122 | Assembling eight levels into a byte and splitting it gives the levels back. |
| Bus.NextLevelAt | source/1wire.c:73 | The `i`-th read of the pin returns the `i`-th scripted level and consumes exactly one level. |
| Bus.ReplayAppend | source/1wire.c:95-122 | Replaying two event sequences in turn is replaying their concatenation, for mode, interrupt flag, atomicity, samples, elapsed time and critical-section count. |
| Bus.LineAtPrefix | source/1wire.c:47-62 | Later events never change the line mode during an earlier slot's delays. |
| OneWire.Master.Configure | source/1wire.c:124-127 | Configuration changes nothing. |

## Left out

- GPIO register access and electrical behaviour: the pin is an abstract mode, and reads return scripted levels. A read returns the scripted level whatever the pin mode. Bus contention (the master driving low while a device releases) is not modelled.
- `_delay_us` accuracy, its compile-time floating-point argument and the CPU clock: a delay is recorded as an exact number of microseconds.
- Interrupt hardware: `cli`/`sei` only clear and set a flag. No interrupt handler runs, so the preemption the critical sections guard against is not modelled.
- `include/1wire.h` only declares the routines and has no logic. `hardware.h` and the GPIO driver are not part of this model.
- Whether 45 µs is long enough for a device's presence pulse (devices may take up to 60 µs) is a device-timing question outside the driver. The model keeps the constant as written.
- OneWire.Master.SendByte: the loop index is an unbounded `nat`, not a `uint8_t`. It never exceeds 8, so no wrap-around is possible.
- OneWire.Master.ReadByte: the C expression `1U << i` is `unsigned int` wide and truncated into the `uint8_t` result. The model uses the 8-bit `Mask(i)` (proved equal to `(1 as bv8) << i`), and since `i < 8` nothing is lost.
- The layers above this engine (ROM commands, device drivers) and the unimplemented body of `WIRE_configure` are not modelled.
