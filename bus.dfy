/**
 * The abstract bus the 1-Wire master drives: the line's two driver states,
 * the events the master produces (mode changes, busy-wait delays, samples and
 * the global interrupt disable/enable pair), and the functions that replay a
 * recorded trace of events to recover the line mode, the interrupt flag, the
 * sampled levels and the line mode at a given microsecond.
 */
module Bus {

  /**
   * The two configurations the driver puts the 1-Wire pin in: a push-pull
   * output that holds the line low, or a floating input that releases it to
   * the pull-up (or to a device that pulls it low itself).
   */
  datatype LineMode = DrivenLow | Released

  /** One observable step of the master. */
  datatype Event =
    | SetMode(mode: LineMode)  // pin reconfigured
    | Delay(us: nat)           // busy-wait of `us` microseconds
    | Sample(level: bool)      // pin level read; true is high
    | Cli                      // interrupts disabled globally
    | Sei                      // interrupts enabled globally

  /** Line mode after replaying `events` from mode `m`. */
  function ModeAfter(m: LineMode, events: seq<Event>): LineMode
    decreases |events|
  {
    if events == [] then m
    else
      var last := events[|events| - 1];
      var before := ModeAfter(m, events[..|events| - 1]);
      if last.SetMode? then last.mode else before
  }

  /** Global interrupt flag after replaying `events` from flag `enabled`. */
  function InterruptsAfter(enabled: bool, events: seq<Event>): bool
    decreases |events|
  {
    if events == [] then enabled
    else
      var last := events[|events| - 1];
      var before := InterruptsAfter(enabled, events[..|events| - 1]);
      if last.Cli? then false else if last.Sei? then true else before
  }

  /**
   * Whether every mode change and every sample in `events` happens while
   * interrupts are disabled, replaying from flag `enabled`: the slot
   * atomicity a 1-Wire master needs.
   */
  predicate Atomic(enabled: bool, events: seq<Event>)
    decreases |events|
  {
    if events == [] then true
    else
      var n := |events| - 1;
      Atomic(enabled, events[..n]) &&
      ((events[n].SetMode? || events[n].Sample?) ==> !InterruptsAfter(enabled, events[..n]))
  }

  /** The levels sampled in `events`, in order. */
  function Samples(events: seq<Event>): seq<bool>
    decreases |events|
  {
    if events == [] then []
    else
      var n := |events| - 1;
      Samples(events[..n]) + (if events[n].Sample? then [events[n].level] else [])
  }

  /** Total busy-wait time of `events`, in microseconds. */
  function Elapsed(events: seq<Event>): nat
    decreases |events|
  {
    if events == [] then 0
    else
      var n := |events| - 1;
      Elapsed(events[..n]) + (if events[n].Delay? then events[n].us else 0)
  }

  /** Number of critical sections `events` opens: its `Cli` events. */
  function CliCount(events: seq<Event>): nat
    decreases |events|
  {
    if events == [] then 0
    else
      var n := |events| - 1;
      CliCount(events[..n]) + (if events[n].Cli? then 1 else 0)
  }

  /**
   * The line mode `at` microseconds after the first of `events`, starting in
   * mode `m`; every event but a delay takes no time, so at the instant a
   * delay ends the events after it have already happened.
   */
  function LineAt(m: LineMode, events: seq<Event>, at: nat): LineMode
    decreases |events|
  {
    if events == [] then m
    else match events[0]
      case SetMode(m') => LineAt(m', events[1..], at)
      case Delay(d) => if at < d then m else LineAt(m, events[1..], at - d)
      case _ => LineAt(m, events[1..], at)
  }

  /** The level the pull-up or a device presents at the next sample: a line nobody pulls low reads high. */
  function NextLevel(script: seq<bool>): bool
  {
    if script == [] then true else script[0]
  }

  /** The script left after one sample. */
  function AfterSample(script: seq<bool>): seq<bool>
  {
    if script == [] then [] else script[1..]
  }

  /** The first `n` levels `script` presents, high once it is exhausted. */
  function Levels(script: seq<bool>, n: nat): (levels: seq<bool>)
    ensures |levels| == n
    ensures forall i :: 0 <= i < n ==> levels[i] == (if i < |script| then script[i] else true)
  {
    seq(n, i requires 0 <= i < n => if i < |script| then script[i] else true)
  }

  /** The script left after `n` samples. */
  function Consumed(script: seq<bool>, n: nat): seq<bool>
  {
    if n <= |script| then script[n..] else []
  }

  /** Sample `i` reads level `i` of the script, and takes one level off what is left. */
  lemma NextLevelAt(script: seq<bool>, i: nat, n: nat)
    requires i < n
    ensures NextLevel(Consumed(script, i)) == Levels(script, n)[i]
    ensures Consumed(script, i + 1) == AfterSample(Consumed(script, i))
  {
  }

  /** Replaying one more event: the definitions above, unfolded at a prefix. */
  lemma PrefixStep(m: LineMode, enabled: bool, s: seq<Event>, k: nat)
    requires k < |s|
    ensures ModeAfter(m, s[..k + 1]) == if s[k].SetMode? then s[k].mode else ModeAfter(m, s[..k])
    ensures InterruptsAfter(enabled, s[..k + 1]) ==
              if s[k].Cli? then false else if s[k].Sei? then true else InterruptsAfter(enabled, s[..k])
    ensures Atomic(enabled, s[..k + 1]) ==
              (Atomic(enabled, s[..k]) && ((s[k].SetMode? || s[k].Sample?) ==> !InterruptsAfter(enabled, s[..k])))
    ensures Samples(s[..k + 1]) == Samples(s[..k]) + (if s[k].Sample? then [s[k].level] else [])
    ensures Elapsed(s[..k + 1]) == Elapsed(s[..k]) + (if s[k].Delay? then s[k].us else 0)
    ensures CliCount(s[..k + 1]) == CliCount(s[..k]) + (if s[k].Cli? then 1 else 0)
  {
    assert s[..k + 1][..k] == s[..k];
  }

  /** Replaying a trace with one more event appended. */
  lemma AppendOne(m: LineMode, enabled: bool, a: seq<Event>, e: Event)
    ensures ModeAfter(m, a + [e]) == if e.SetMode? then e.mode else ModeAfter(m, a)
    ensures InterruptsAfter(enabled, a + [e]) ==
              if e.Cli? then false else if e.Sei? then true else InterruptsAfter(enabled, a)
    ensures Atomic(enabled, a + [e]) ==
              (Atomic(enabled, a) && ((e.SetMode? || e.Sample?) ==> !InterruptsAfter(enabled, a)))
    ensures Samples(a + [e]) == Samples(a) + (if e.Sample? then [e.level] else [])
    ensures Elapsed(a + [e]) == Elapsed(a) + (if e.Delay? then e.us else 0)
    ensures CliCount(a + [e]) == CliCount(a) + (if e.Cli? then 1 else 0)
  {
    assert (a + [e])[..|a|] == a;
  }

  /** Replaying a concatenation replays its first part, then its second. */
  lemma {:induction false} ReplayAppend(m: LineMode, enabled: bool, a: seq<Event>, b: seq<Event>)
    ensures ModeAfter(m, a + b) == ModeAfter(ModeAfter(m, a), b)
    ensures InterruptsAfter(enabled, a + b) == InterruptsAfter(InterruptsAfter(enabled, a), b)
    ensures Atomic(enabled, a + b) == (Atomic(enabled, a) && Atomic(InterruptsAfter(enabled, a), b))
    ensures Samples(a + b) == Samples(a) + Samples(b)
    ensures Elapsed(a + b) == Elapsed(a) + Elapsed(b)
    ensures CliCount(a + b) == CliCount(a) + CliCount(b)
    decreases |b|
  {
    if b == [] {
      assert a + b == a;
    } else {
      var n := |b| - 1;
      assert (a + b)[..|a + b| - 1] == a + b[..n];
      ReplayAppend(m, enabled, a, b[..n]);
    }
  }

  /**
   * Appending events never changes the line mode at an instant that falls
   * inside the busy-waits of the first part.
   */
  lemma {:induction false} LineAtPrefix(m: LineMode, a: seq<Event>, b: seq<Event>, at: nat)
    requires at < Elapsed(a)
    ensures LineAt(m, a + b, at) == LineAt(m, a, at)
    decreases |a|
  {
    assert a != [];
    ElapsedFront(a);
    assert (a + b)[1..] == a[1..] + b;
    match a[0]
    case SetMode(m') => LineAtPrefix(m', a[1..], b, at);
    case Delay(d) => if at >= d { LineAtPrefix(m, a[1..], b, at - d); }
    case Sample(_) => LineAtPrefix(m, a[1..], b, at);
    case Cli => LineAtPrefix(m, a[1..], b, at);
    case Sei => LineAtPrefix(m, a[1..], b, at);
  }

  /** A released line stays released through events that never drive it low. */
  lemma {:induction false} StaysReleased(s: seq<Event>, at: nat)
    requires forall k :: 0 <= k < |s| ==> s[k] != SetMode(DrivenLow)
    ensures LineAt(Released, s, at) == Released
    decreases |s|
  {
    if s != [] {
      assert s[0] != SetMode(DrivenLow);
      match s[0]
      case Delay(d) => if at >= d { StaysReleased(s[1..], at - d); }
      case _ => StaysReleased(s[1..], at);
    }
  }

  /** Elapsed time, counted from the front. */
  lemma ElapsedFront(a: seq<Event>)
    requires a != []
    ensures Elapsed(a) == (if a[0].Delay? then a[0].us else 0) + Elapsed(a[1..])
  {
    assert a == [a[0]] + a[1..];
    ReplayAppend(Released, true, [a[0]], a[1..]);
    assert [a[0]][..0] == [];
  }
}
