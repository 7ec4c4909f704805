/**
 * The event sequences the 1-Wire master produces: the reset/presence
 * sequence, the write slot and the read slot, and the byte-level traces made
 * of eight slots, each followed by a recovery delay. These functions are the
 * specification that the driver's methods are proved against; the lemmas
 * here state what the sequences guarantee on the bus.
 */
module Slots {
  import opened Bits
  import opened Bus

  /** The driver's delays, in microseconds. */
  datatype Timing = Timing(
    resetPulse: nat,         // line held low to reset the bus
    waitForPresence: nat,    // released, before sampling for a presence pulse
    waitPostPresence: nat,   // after the presence sample
    txSlotInit: nat,         // low pulse opening a write slot
    txHoldForSampling: nat,  // window in which the device samples a written bit
    slotRecovery: nat,       // after each bit slot of a byte
    rxSlotInit: nat,         // low pulse opening a read slot
    rxWaitToSample: nat      // released, before the master samples a read bit
  )

  const MasterTxResetPulseTime: nat := 500
  /**
   * 45 µs as the driver ships it; devices may take up to 60 µs to start
   * their presence pulse, so this constant is a field of `Timing` and no
   * lemma depends on its value.
   */
  const MasterWaitForPresence: nat := 45
  const MasterWaitPostPresence: nat := 470
  const MasterTxSlotInitTime: nat := 5
  const MasterTxHoldForSampling: nat := 80
  const MasterSlotRecoveryTime: nat := 2
  const MasterRxSlotInitTime: nat := 2
  const MasterRxWaitToSample: nat := 15

  /** The timing the driver is built with. */
  const DefaultTiming := Timing(
    MasterTxResetPulseTime, MasterWaitForPresence, MasterWaitPostPresence,
    MasterTxSlotInitTime, MasterTxHoldForSampling, MasterSlotRecoveryTime,
    MasterRxSlotInitTime, MasterRxWaitToSample)

  /**
   * `s` is one critical section: it opens by disabling interrupts, closes by
   * enabling them, and does neither in between.
   */
  predicate Bracketed(s: seq<Event>)
  {
    |s| >= 2 && s[0] == Cli && s[|s| - 1] == Sei &&
    forall k :: 0 < k < |s| - 1 ==> !s[k].Cli? && !s[k].Sei?
  }

  /** `s` leaves the interrupt flag alone. */
  predicate NoInterruptControl(s: seq<Event>)
  {
    forall k :: 0 <= k < |s| ==> !s[k].Cli? && !s[k].Sei?
  }

  /**
   * The write slot for `bit`: pull the line low for the slot-init time,
   * release it at once for a 1 (leave it low for a 0), hold for the
   * device's sampling window, release, all with interrupts disabled.
   */
  function SendBitSlot(t: Timing, bit: bool): (s: seq<Event>)
    ensures Bracketed(s)
    ensures s[1] == SetMode(DrivenLow) && s[|s| - 2] == SetMode(Released)
    ensures forall k :: 0 <= k < |s| ==> !s[k].Sample?
  {
    [Cli, SetMode(DrivenLow), Delay(t.txSlotInit)]
    + (if bit then [SetMode(Released)] else [])
    + [Delay(t.txHoldForSampling), SetMode(Released), Sei]
  }

  /**
   * The read slot that samples `level`: a short low pulse, release, wait,
   * sample, all with interrupts disabled.
   */
  function ReadBitSlot(t: Timing, level: bool): (s: seq<Event>)
    ensures Bracketed(s)
    ensures |s| == 7 && s[5] == Sample(level)
    ensures forall k :: 0 <= k < |s| && k != 5 ==> !s[k].Sample?
    ensures s[1] == SetMode(DrivenLow) && s[3] == SetMode(Released)
  {
    [Cli, SetMode(DrivenLow), Delay(t.rxSlotInit), SetMode(Released),
     Delay(t.rxWaitToSample), Sample(level), Sei]
  }

  /**
   * The reset/presence sequence that samples `level`: a long low pulse,
   * release, wait for a presence pulse, sample, then wait for the device to
   * finish it. Interrupts are not touched.
   */
  function ResetSequence(t: Timing, level: bool): (s: seq<Event>)
    ensures NoInterruptControl(s)
    ensures |s| == 6 && s[4] == Sample(level)
    ensures forall k :: 0 <= k < |s| && k != 4 ==> !s[k].Sample?
    ensures s[0] == SetMode(DrivenLow) && s[2] == SetMode(Released)
    ensures s[5] == Delay(t.waitPostPresence)
  {
    [SetMode(DrivenLow), Delay(t.resetPulse), SetMode(Released),
     Delay(t.waitForPresence), Sample(level), Delay(t.waitPostPresence)]
  }

  /** The slots of a byte write that sends `bits`, each with its recovery delay. */
  function WriteSlots(t: Timing, bits: seq<bool>): seq<seq<Event>>
  {
    seq(|bits|, i requires 0 <= i < |bits| => SendBitSlot(t, bits[i]) + [Delay(t.slotRecovery)])
  }

  /** The slots of a byte read that samples `levels`, each with its recovery delay. */
  function ReadSlots(t: Timing, levels: seq<bool>): seq<seq<Event>>
  {
    seq(|levels|, i requires 0 <= i < |levels| => ReadBitSlot(t, levels[i]) + [Delay(t.slotRecovery)])
  }

  /** The slots one after the other. */
  function Concat(slots: seq<seq<Event>>): seq<Event>
    decreases |slots|
  {
    if slots == [] then [] else Concat(slots[..|slots| - 1]) + slots[|slots| - 1]
  }

  /** Taking one more slot appends it. */
  lemma ConcatStep(slots: seq<seq<Event>>, i: nat)
    requires i < |slots|
    ensures Concat(slots[..i + 1]) == Concat(slots[..i]) + slots[i]
  {
    assert slots[..i + 1][..i] == slots[..i];
  }

  /** A byte write's trace after one more slot and its recovery delay. */
  lemma WriteSlotsStep(t: Timing, bits: seq<bool>, i: nat, start: seq<Event>, before: seq<Event>, after: seq<Event>)
    requires i < |bits|
    requires before == start + Concat(WriteSlots(t, bits)[..i])
    requires after == before + SendBitSlot(t, bits[i]) + [Delay(t.slotRecovery)]
    ensures after == start + Concat(WriteSlots(t, bits)[..i + 1])
  {
    var slots := WriteSlots(t, bits);
    ConcatStep(slots, i);
    assert after == start + (Concat(slots[..i]) + slots[i]);
  }

  /** A byte read's trace after one more slot and its recovery delay. */
  lemma ReadSlotsStep(t: Timing, levels: seq<bool>, i: nat, start: seq<Event>, before: seq<Event>, after: seq<Event>)
    requires i < |levels|
    requires before == start + Concat(ReadSlots(t, levels)[..i])
    requires after == before + ReadBitSlot(t, levels[i]) + [Delay(t.slotRecovery)]
    ensures after == start + Concat(ReadSlots(t, levels)[..i + 1])
  {
    var slots := ReadSlots(t, levels);
    ConcatStep(slots, i);
    assert after == start + (Concat(slots[..i]) + slots[i]);
  }

  /** What a device sampling each slot `at` µs after it opens reads: high is 1. */
  function Observed(slots: seq<seq<Event>>, at: nat): (bits: seq<bool>)
    ensures |bits| == |slots|
  {
    seq(|slots|, i requires 0 <= i < |slots| => LineAt(Released, slots[i], at) == Released)
  }

  /**
   * A critical section disables interrupts for every mode change and sample
   * in it and leaves them enabled, whatever the flag was before.
   */
  lemma {:induction false} BracketedAtomic(s: seq<Event>, enabled: bool)
    requires Bracketed(s)
    ensures Atomic(enabled, s) && InterruptsAfter(enabled, s)
  {
    var n := |s| - 1;
    InnerDisabled(s, enabled, n);
  }

  /** Inside a critical section, every prefix past the opening `Cli` leaves interrupts disabled. */
  lemma {:induction false} InnerDisabled(s: seq<Event>, enabled: bool, n: nat)
    requires Bracketed(s) && 1 <= n <= |s| - 1
    ensures Atomic(enabled, s[..n]) && !InterruptsAfter(enabled, s[..n])
    ensures Atomic(enabled, s[..n + 1])
    ensures n == |s| - 1 ==> s[..n + 1] == s && InterruptsAfter(enabled, s)
  {
    if n == 1 {
      assert s[..1][..0] == [];
    } else {
      InnerDisabled(s, enabled, n - 1);
      assert s[..n][..n - 1] == s[..n - 1];
    }
    assert s[..n + 1][..n] == s[..n];
  }

  /** A sequence that never touches the interrupt flag leaves it as it was. */
  lemma {:induction false} NoControlKeepsFlag(s: seq<Event>, enabled: bool)
    requires NoInterruptControl(s)
    ensures InterruptsAfter(enabled, s) == enabled
    decreases |s|
  {
    if s != [] {
      NoControlKeepsFlag(s[..|s| - 1], enabled);
    }
  }

  /**
   * Whatever mode the line starts in, a write slot holds it low for the
   * slot-init time, holds it low for the sampling window exactly when the
   * bit is 0, and leaves it released; it samples nothing and lasts the
   * slot-init time plus the sampling window.
   */
  lemma SendBitWaveform(t: Timing, bit: bool, m: LineMode, at: nat)
    ensures at < t.txSlotInit ==> LineAt(m, SendBitSlot(t, bit), at) == DrivenLow
    ensures t.txSlotInit <= at < t.txSlotInit + t.txHoldForSampling ==>
              (LineAt(m, SendBitSlot(t, bit), at) == DrivenLow) == !bit
    ensures t.txSlotInit + t.txHoldForSampling <= at ==> LineAt(m, SendBitSlot(t, bit), at) == Released
    ensures ModeAfter(m, SendBitSlot(t, bit)) == Released
    ensures Samples(SendBitSlot(t, bit)) == []
    ensures Elapsed(SendBitSlot(t, bit)) == t.txSlotInit + t.txHoldForSampling
  {
    var s := SendBitSlot(t, bit);
    var hold := t.txHoldForSampling;
    var tail := [Delay(hold), SetMode(Released), Sei];
    var init := t.txSlotInit;
    // The slot after its opening pulse: the line is low while `init` runs.
    assert s[1..] == [SetMode(DrivenLow), Delay(init)] + s[3..];
    assert LineAt(m, s, at) == LineAt(DrivenLow, s[2..], at);
    assert LineAt(DrivenLow, s[2..], at) == if at < init then DrivenLow else LineAt(DrivenLow, s[3..], at - init);
    if at >= init {
      var a := at - init;
      HoldWaveform(DrivenLow, hold, a);
      if bit {
        assert s[3..] == [SetMode(Released)] + tail;
        HoldWaveform(Released, hold, a);
      } else {
        assert s[3..] == tail;
      }
    }
    ReplayAll(m, true, s);
  }

  /** The end of a write slot: hold the current mode for `hold` µs, then release. */
  lemma HoldWaveform(m: LineMode, hold: nat, at: nat)
    ensures LineAt(m, [Delay(hold), SetMode(Released), Sei], at) == if at < hold then m else Released
  {
    var tail := [Delay(hold), SetMode(Released), Sei];
    if at >= hold {
      var a := at - hold;
      assert tail[1..] == [SetMode(Released), Sei] && tail[1..][1..] == [Sei] && [Sei][1..] == [];
      assert LineAt(m, tail, at) == LineAt(m, tail[1..], a);
      assert LineAt(m, tail[1..], a) == LineAt(Released, [Sei], a);
      assert LineAt(Released, [Sei], a) == LineAt(Released, [], a);
    }
  }

  /** Replaying a sequence event by event, written out for the short slot sequences. */
  lemma ReplayAll(m: LineMode, enabled: bool, s: seq<Event>)
    requires |s| <= 8
    ensures forall k :: 0 <= k < |s| ==>
      ModeAfter(m, s[..k + 1]) == (if s[k].SetMode? then s[k].mode else ModeAfter(m, s[..k])) &&
      Samples(s[..k + 1]) == Samples(s[..k]) + (if s[k].Sample? then [s[k].level] else []) &&
      Elapsed(s[..k + 1]) == Elapsed(s[..k]) + (if s[k].Delay? then s[k].us else 0)
    ensures s[..|s|] == s && s[..0] == []
  {
    forall k | 0 <= k < |s|
      ensures ModeAfter(m, s[..k + 1]) == (if s[k].SetMode? then s[k].mode else ModeAfter(m, s[..k]))
      ensures Samples(s[..k + 1]) == Samples(s[..k]) + (if s[k].Sample? then [s[k].level] else [])
      ensures Elapsed(s[..k + 1]) == Elapsed(s[..k]) + (if s[k].Delay? then s[k].us else 0)
    {
      PrefixStep(m, enabled, s, k);
    }
  }

  /**
   * Whatever mode the line starts in, a read slot holds it low for the
   * read-slot-init time and then leaves it released, through the sample
   * taken after the read-slot-init time and the wait-to-sample time.
   */
  lemma ReadBitWaveform(t: Timing, level: bool, m: LineMode, at: nat)
    ensures LineAt(m, ReadBitSlot(t, level), at) == if at < t.rxSlotInit then DrivenLow else Released
    ensures ModeAfter(m, ReadBitSlot(t, level)[..5]) == Released
    ensures ModeAfter(m, ReadBitSlot(t, level)) == Released
    ensures Samples(ReadBitSlot(t, level)) == [level]
    ensures Elapsed(ReadBitSlot(t, level)[..5]) == t.rxSlotInit + t.rxWaitToSample
    ensures Elapsed(ReadBitSlot(t, level)) == t.rxSlotInit + t.rxWaitToSample
  {
    var s := ReadBitSlot(t, level);
    assert s[1..] == [SetMode(DrivenLow), Delay(t.rxSlotInit)] + s[3..];
    assert LineAt(m, s, at) == LineAt(DrivenLow, s[2..], at);
    if at >= t.rxSlotInit {
      var a := at - t.rxSlotInit;
      assert LineAt(DrivenLow, s[2..], at) == LineAt(DrivenLow, s[3..], a);
      assert LineAt(DrivenLow, s[3..], a) == LineAt(Released, s[4..], a);
      StaysReleased(s[4..], a);
    }
    ReplayAll(m, true, s);
  }

  /**
   * Whatever mode the line starts in, the reset sequence holds it low for
   * the reset pulse and then leaves it released, through the presence sample
   * taken after the reset pulse and the wait for presence.
   */
  lemma ResetWaveform(t: Timing, level: bool, m: LineMode, at: nat)
    ensures LineAt(m, ResetSequence(t, level), at) == if at < t.resetPulse then DrivenLow else Released
    ensures ModeAfter(m, ResetSequence(t, level)[..4]) == Released
    ensures ModeAfter(m, ResetSequence(t, level)) == Released
    ensures Samples(ResetSequence(t, level)) == [level]
    ensures Elapsed(ResetSequence(t, level)[..4]) == t.resetPulse + t.waitForPresence
  {
    var s := ResetSequence(t, level);
    assert LineAt(m, s, at) == LineAt(DrivenLow, s[1..], at);
    if at >= t.resetPulse {
      var a := at - t.resetPulse;
      assert LineAt(DrivenLow, s[1..], at) == LineAt(DrivenLow, s[2..], a);
      assert LineAt(DrivenLow, s[2..], a) == LineAt(Released, s[3..], a);
      StaysReleased(s[3..], a);
    }
    ReplayAll(m, true, s);
  }

  /**
   * One write slot with its recovery delay: one critical section, no sample,
   * the line released and interrupts enabled at its end.
   */
  lemma WriteChunk(t: Timing, bit: bool, m: LineMode, enabled: bool)
    ensures var c := SendBitSlot(t, bit) + [Delay(t.slotRecovery)];
      ModeAfter(m, c) == Released && Atomic(enabled, c) && InterruptsAfter(enabled, c) &&
      Samples(c) == [] && CliCount(c) == 1
  {
    var s := SendBitSlot(t, bit);
    SendBitWaveform(t, bit, m, 0);
    BracketedAtomic(s, enabled);
    SlotCountOne(s);
    AppendOne(m, enabled, s, Delay(t.slotRecovery));
  }

  /**
   * One read slot with its recovery delay: one critical section, one sample
   * of `level`, the line released and interrupts enabled at its end.
   */
  lemma ReadChunk(t: Timing, level: bool, m: LineMode, enabled: bool)
    ensures var c := ReadBitSlot(t, level) + [Delay(t.slotRecovery)];
      ModeAfter(m, c) == Released && Atomic(enabled, c) && InterruptsAfter(enabled, c) &&
      Samples(c) == [level] && CliCount(c) == 1
  {
    var s := ReadBitSlot(t, level);
    ReadBitWaveform(t, level, m, 0);
    BracketedAtomic(s, enabled);
    SlotCountOne(s);
    AppendOne(m, enabled, s, Delay(t.slotRecovery));
  }

  /** A critical section opens exactly one critical section. */
  lemma SlotCountOne(s: seq<Event>)
    requires Bracketed(s)
    ensures CliCount(s) == 1
  {
    PrefixCliCount(s, |s|);
    assert s[..|s|] == s;
  }

  /** Every non-empty prefix of a critical section holds its one `Cli`. */
  lemma {:induction false} PrefixCliCount(s: seq<Event>, n: nat)
    requires Bracketed(s) && 1 <= n <= |s|
    ensures CliCount(s[..n]) == 1
  {
    PrefixStep(Released, true, s, n - 1);
    if n > 1 {
      PrefixCliCount(s, n - 1);
    } else {
      assert s[..0] == [];
    }
  }

  /**
   * The trace of a byte write: one write slot per bit, in order, each opening
   * one critical section; every mode change happens with interrupts
   * disabled, nothing is sampled, and once any bit has been sent the line is
   * released and interrupts are enabled.
   */
  lemma {:induction false} WriteTrace(t: Timing, bits: seq<bool>, m: LineMode, enabled: bool)
    ensures var tr := Concat(WriteSlots(t, bits));
      Atomic(enabled, tr) && Samples(tr) == [] && CliCount(tr) == |bits| &&
      (bits != [] ==> ModeAfter(m, tr) == Released && InterruptsAfter(enabled, tr))
    decreases |bits|
  {
    var ss := WriteSlots(t, bits);
    if bits != [] {
      var n := |bits| - 1;
      assert ss[..n] == WriteSlots(t, bits[..n]);
      WriteTrace(t, bits[..n], m, enabled);
      var front := Concat(ss[..n]);
      ReplayAppend(m, enabled, front, ss[n]);
      WriteChunk(t, bits[n], ModeAfter(m, front), InterruptsAfter(enabled, front));
    }
  }

  /**
   * The trace of a byte read: one read slot per level, in order, each opening
   * one critical section; every mode change and sample happens with
   * interrupts disabled, the samples are exactly `levels`, and once any bit
   * has been read the line is released and interrupts are enabled.
   */
  lemma {:induction false} ReadTrace(t: Timing, levels: seq<bool>, m: LineMode, enabled: bool)
    ensures var tr := Concat(ReadSlots(t, levels));
      Atomic(enabled, tr) && Samples(tr) == levels && CliCount(tr) == |levels| &&
      (levels != [] ==> ModeAfter(m, tr) == Released && InterruptsAfter(enabled, tr))
    decreases |levels|
  {
    var ss := ReadSlots(t, levels);
    if levels != [] {
      var n := |levels| - 1;
      assert ss[..n] == ReadSlots(t, levels[..n]);
      ReadTrace(t, levels[..n], m, enabled);
      var front := Concat(ss[..n]);
      ReplayAppend(m, enabled, front, ss[n]);
      ReadChunk(t, levels[n], ModeAfter(m, front), InterruptsAfter(enabled, front));
      assert levels == levels[..n] + [levels[n]];
    }
  }

  /** The byte a byte read assembles carries, bit by bit, the levels its slots sampled. */
  lemma ReadByteSamples(t: Timing, levels: seq<bool>)
    requires |levels| == ByteWidth
    ensures BitsOf(FromBits(levels)) == Samples(Concat(ReadSlots(t, levels)))
  {
    ReadTrace(t, levels, Released, true);
    BitsOfFromBits(levels);
  }

  /**
   * A device that samples every write slot at an instant inside the
   * sampling window (after the slot-init pulse, before the hold ends) reads
   * back exactly the bits that were sent.
   */
  lemma WriteSlotsObserved(t: Timing, bits: seq<bool>, at: nat)
    requires t.txSlotInit <= at < t.txSlotInit + t.txHoldForSampling
    ensures Observed(WriteSlots(t, bits), at) == bits
  {
    var ss := WriteSlots(t, bits);
    forall i | 0 <= i < |bits| ensures Observed(ss, at)[i] == bits[i] {
      SendBitWaveform(t, bits[i], Released, at);
      LineAtPrefix(Released, SendBitSlot(t, bits[i]), [Delay(t.slotRecovery)], at);
    }
  }

  /**
   * Byte write, seen from the bus: eight slots, and a device sampling each
   * inside the sampling window reassembles the byte that was sent.
   */
  lemma WriteByteObserved(t: Timing, b: bv8, at: nat)
    requires t.txSlotInit <= at < t.txSlotInit + t.txHoldForSampling
    ensures |WriteSlots(t, BitsOf(b))| == ByteWidth
    ensures FromBits(Observed(WriteSlots(t, BitsOf(b)), at)) == b
  {
    WriteSlotsObserved(t, BitsOf(b), at);
    FromBitsOfBits(b);
  }

  /**
   * Byte read against a device that answers with the bits of `b`, least
   * significant first (whatever it would send after them): the byte
   * assembled is `b`.
   */
  lemma ReadByteRoundTrip(b: bv8, rest: seq<bool>)
    ensures FromBits(Levels(BitsOf(b) + rest, ByteWidth)) == b
  {
    assert Levels(BitsOf(b) + rest, ByteWidth) == BitsOf(b);
    FromBitsOfBits(b);
  }

  /**
   * Loopback: a byte written, observed by a device inside each sampling
   * window, and played back by it to a byte read, comes back unchanged.
   */
  lemma WriteReadLoopback(t: Timing, b: bv8, at: nat)
    requires t.txSlotInit <= at < t.txSlotInit + t.txHoldForSampling
    ensures FromBits(Levels(Observed(WriteSlots(t, BitsOf(b)), at), ByteWidth)) == b
  {
    WriteSlotsObserved(t, BitsOf(b), at);
    ReadByteRoundTrip(b, []);
    assert BitsOf(b) + [] == BitsOf(b);
  }

  /** The shipped timing leaves a sampling window: 5 µs to 85 µs into each write slot. */
  lemma DefaultWriteWindow(b: bv8, at: nat)
    requires 5 <= at < 85
    ensures FromBits(Observed(WriteSlots(DefaultTiming, BitsOf(b)), at)) == b
  {
    WriteByteObserved(DefaultTiming, b, at);
  }
}
