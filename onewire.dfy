/**
 * The 1-Wire bus master: the driver's six routines as methods of a class
 * that holds the shared state they act on — the pin's mode, the global
 * interrupt flag — together with the trace of everything the master has done
 * on the bus and the script of levels the pull-up or a device presents when
 * the pin is read.
 *
 * The pin, delay and interrupt primitives the driver calls into are the
 * private methods `ConfigPin`, `DelayUs`, `ReadPin`, `DisableInterrupts` and
 * `EnableInterrupts`; each records one event. Every routine is proved to
 * append exactly the event sequence of its specification in module `Slots`.
 */
module OneWire {
  import opened Bits
  import opened Bus
  import opened Slots

  class Master {
    /** The delays the driver is built with. */
    const timing: Timing

    /** The pin's current configuration. */
    var mode: LineMode
    /** The global interrupt-enable flag. */
    var interruptsEnabled: bool
    /** Everything the master has done on the bus, oldest first. */
    var trace: seq<Event>
    /** The levels still to be presented at the next samples, next first. */
    var script: seq<bool>

    constructor (timing: Timing, mode: LineMode, interruptsEnabled: bool, script: seq<bool>)
      ensures this.timing == timing && this.mode == mode
      ensures this.interruptsEnabled == interruptsEnabled && this.script == script
      ensures trace == []
    {
      this.timing := timing;
      this.mode := mode;
      this.interruptsEnabled := interruptsEnabled;
      this.script := script;
      trace := [];
    }

    /** The pin is reconfigured to `m`. */
    method ConfigPin(m: LineMode)
      modifies this
      ensures mode == m && trace == old(trace) + [SetMode(m)]
      ensures interruptsEnabled == old(interruptsEnabled) && script == old(script)
    {
      mode := m;
      trace := trace + [SetMode(m)];
    }

    /** A busy-wait of `us` microseconds. */
    method DelayUs(us: nat)
      modifies this
      ensures trace == old(trace) + [Delay(us)]
      ensures mode == old(mode) && interruptsEnabled == old(interruptsEnabled) && script == old(script)
    {
      trace := trace + [Delay(us)];
    }

    /** The pin is read: the level the pull-up or a device presents now. */
    method ReadPin() returns (level: bool)
      modifies this
      ensures level == NextLevel(old(script)) && script == AfterSample(old(script))
      ensures trace == old(trace) + [Sample(level)]
      ensures mode == old(mode) && interruptsEnabled == old(interruptsEnabled)
    {
      level := NextLevel(script);
      trace := trace + [Sample(level)];
      script := AfterSample(script);
    }

    /** `cli()`: all interrupts disabled. */
    method DisableInterrupts()
      modifies this
      ensures !interruptsEnabled && trace == old(trace) + [Cli]
      ensures mode == old(mode) && script == old(script)
    {
      interruptsEnabled := false;
      trace := trace + [Cli];
    }

    /** `sei()`: all interrupts enabled. */
    method EnableInterrupts()
      modifies this
      ensures interruptsEnabled && trace == old(trace) + [Sei]
      ensures mode == old(mode) && script == old(script)
    {
      interruptsEnabled := true;
      trace := trace + [Sei];
    }

    /**
     * Write slot: one critical section that pulls the line low, releases it
     * early for a 1, holds through the sampling window and releases it.
     * Interrupts are enabled on return, whatever they were before.
     */
    method SendBit(bit: bool)
      modifies this
      ensures trace == old(trace) + SendBitSlot(timing, bit)
      ensures mode == Released && interruptsEnabled && script == old(script)
    {
      ghost var start := trace;
      DisableInterrupts();
      ConfigPin(DrivenLow);
      DelayUs(timing.txSlotInit);
      ghost var init := [Cli, SetMode(DrivenLow), Delay(timing.txSlotInit)];
      assert trace == start + init;
      if bit {
        ConfigPin(Released);
      }
      ghost var early := if bit then [SetMode(Released)] else [];
      assert trace == start + init + early;
      DelayUs(timing.txHoldForSampling);
      ConfigPin(Released);
      EnableInterrupts();
      assert trace == start + (init + early + [Delay(timing.txHoldForSampling), SetMode(Released), Sei]);
    }

    /**
     * Read slot: one critical section that pulls the line low briefly,
     * releases it, waits and samples it once; the sampled level is returned
     * as it is.
     */
    method ReadBit() returns (level: bool)
      modifies this
      ensures level == NextLevel(old(script)) && script == AfterSample(old(script))
      ensures trace == old(trace) + ReadBitSlot(timing, level)
      ensures mode == Released && interruptsEnabled
    {
      DisableInterrupts();
      ConfigPin(DrivenLow);
      DelayUs(timing.rxSlotInit);
      ConfigPin(Released);
      DelayUs(timing.rxWaitToSample);
      level := ReadPin();
      EnableInterrupts();
    }

    /**
     * Reset and presence detection: pull the line low for the reset pulse,
     * release it, wait for a presence pulse, sample once and wait for the
     * device to finish. A device is present exactly when the sample reads
     * low; with no device the pull-up reads high. The interrupt flag is not
     * touched.
     */
    method Reset() returns (present: bool)
      modifies this
      ensures present == !NextLevel(old(script)) && script == AfterSample(old(script))
      ensures old(script) == [] ==> !present
      ensures trace == old(trace) + ResetSequence(timing, !present)
      ensures mode == Released && interruptsEnabled == old(interruptsEnabled)
    {
      ConfigPin(DrivenLow);
      DelayUs(timing.resetPulse);
      ConfigPin(Released);
      DelayUs(timing.waitForPresence);
      var level := ReadPin();
      present := !level;
      DelayUs(timing.waitPostPresence);
    }

    /**
     * Byte write: eight write slots carrying the bits of `b`, least
     * significant first, taken from a copy shifted right once per slot;
     * each slot is followed by one recovery delay.
     */
    method SendByte(b: bv8)
      modifies this
      ensures trace == old(trace) + Concat(WriteSlots(timing, BitsOf(b)))
      ensures mode == Released && interruptsEnabled && script == old(script)
    {
      var tmp := b;
      var i: nat := 0;
      ghost var slots := WriteSlots(timing, BitsOf(b));
      while i < ByteWidth
        invariant i <= ByteWidth
        invariant tmp == Shifted(b, i)
        invariant trace == old(trace) + Concat(WriteSlots(timing, BitsOf(b))[..i])
        invariant i > 0 ==> mode == Released && interruptsEnabled
        invariant script == old(script)
      {
        var bit := (tmp & 1) == 1;
        ghost var before := trace;
        SendBit(bit);
        tmp := tmp >> 1;
        DelayUs(timing.slotRecovery);
        WriteSlotsStep(timing, BitsOf(b), i, old(trace), before, trace);
        i := i + 1;
      }
      assert slots[..ByteWidth] == slots;
    }

    /**
     * Byte read: eight read slots, each followed by one recovery delay; the
     * level sampled in slot `i` sets bit `i` of the result, so the byte is
     * the first eight levels presented, least significant first.
     */
    method ReadByte() returns (r: bv8)
      modifies this
      ensures trace == old(trace) + Concat(ReadSlots(timing, Levels(old(script), ByteWidth)))
      ensures r == FromBits(Levels(old(script), ByteWidth))
      ensures BitsOf(r) == Samples(trace[|old(trace)|..])
      ensures script == Consumed(old(script), ByteWidth)
      ensures mode == Released && interruptsEnabled
    {
      r := 0;
      var i: nat := 0;
      ghost var levels := Levels(script, ByteWidth);
      ghost var slots := ReadSlots(timing, levels);
      while i < ByteWidth
        invariant i <= ByteWidth
        invariant r == FromBits(levels[..i])
        invariant script == Consumed(old(script), i)
        invariant trace == old(trace) + Concat(slots[..i])
        invariant i > 0 ==> mode == Released && interruptsEnabled
      {
        ghost var before := trace;
        var bit := ReadBit();
        assert bit == levels[i] && script == Consumed(old(script), i + 1) by {
          NextLevelAt(old(script), i, ByteWidth);
        }
        assert FromBits(levels[..i + 1]) == if bit then r | Mask(i) else r by {
          FromBitsPrefixStep(levels, i);
        }
        if bit {
          r := r | Mask(i);
        }
        DelayUs(timing.slotRecovery);
        assert trace == old(trace) + Concat(slots[..i + 1]) by {
          ReadSlotsStep(timing, levels, i, old(trace), before, trace);
        }
        i := i + 1;
      }
      assert levels[..ByteWidth] == levels && slots[..ByteWidth] == slots;
      assert BitsOf(r) == Samples(trace[|old(trace)|..]) by {
        assert trace[|old(trace)|..] == Concat(slots);
        ReadByteSamples(timing, levels);
      }
    }

    /** Driver configuration: not implemented by the driver, so it does nothing. */
    method Configure()
      ensures unchanged(this)
    {
    }
  }
}
