/** The hardware-agnostic tone sequencer of src/drivers/buzzer.rs.

    `Buzzer` is generic over any PWM channel that can set a frequency and a
    duty cycle, and over any millisecond delay provider. Here both are
    recording objects: every call they receive is appended, in order, to one
    shared `Recorder`. The trace is what the sequencer's correctness is about:
    which calls are made, with which arguments, in which order. */
module BuzzerDriver {
  import opened Ints

  /** One call received by the channel or by the delay provider. */
  datatype Call =
    | SetFreq(hz: u32)        // SetFrequency::set_frequency(hz)
    | ReadMax(value: u16)     // SetDutyCycle::max_duty_cycle(), with the value it answered
    | SetDuty(duty: u16)      // SetDutyCycle::set_duty_cycle(duty)
    | DelayMs(ms: u32)        // DelayNs::delay_ms(ms)

  /** The result of a channel operation whose success value is `()`. */
  datatype Outcome = Ok | Err

  /** The single ordered log both collaborators write to. */
  class Recorder {
    ghost var events: seq<Call>

    constructor ()
      ensures events == []
    {
      events := [];
    }
  }

  /** Any channel implementing `SetDutyCycle + SetFrequency`.

      `max` is what `max_duty_cycle` reports; neither channel of this
      repository (the test mock and `BuzzerPwm`) changes it when retuned.
      `frequencyFails` and `dutyFails` say whether the channel answers `Err`
      to the corresponding call. */
  class Channel {
    const log: Recorder
    const max: u16
    const frequencyFails: bool
    const dutyFails: bool

    constructor (log: Recorder, max: u16, frequencyFails: bool, dutyFails: bool)
      ensures this.log == log && this.max == max
      ensures this.frequencyFails == frequencyFails && this.dutyFails == dutyFails
    {
      this.log := log;
      this.max := max;
      this.frequencyFails := frequencyFails;
      this.dutyFails := dutyFails;
    }

    method SetFrequency(hz: u32) returns (r: Outcome)
      modifies log
      ensures r == (if frequencyFails then Err else Ok)
      ensures log.events == old(log.events) + [SetFreq(hz)]
    {
      log.events := log.events + [SetFreq(hz)];
      r := if frequencyFails then Err else Ok;
    }

    method MaxDutyCycle() returns (m: u16)
      modifies log
      ensures m == max
      ensures log.events == old(log.events) + [ReadMax(max)]
    {
      m := max;
      log.events := log.events + [ReadMax(m)];
    }

    method SetDutyCycle(duty: u16) returns (r: Outcome)
      modifies log
      ensures r == (if dutyFails then Err else Ok)
      ensures log.events == old(log.events) + [SetDuty(duty)]
    {
      log.events := log.events + [SetDuty(duty)];
      r := if dutyFails then Err else Ok;
    }
  }

  /** Any `DelayNs` provider: it records the milliseconds it was asked to wait. */
  class Delay {
    const log: Recorder

    constructor (log: Recorder)
      ensures this.log == log
    {
      this.log := log;
    }

    method DelayMilliseconds(ms: u32)
      modifies log
      ensures log.events == old(log.events) + [DelayMs(ms)]
    {
      log.events := log.events + [DelayMs(ms)];
    }
  }

  /** The duty value `tone` writes for `percent` of `max`:
      `(u32::from(max) * percent as u32 / 100) as u16`. */
  function DutyFor(max: u16, percent: u8): (duty: u16)
    ensures percent <= 100 ==> duty <= max
  {
    ProductFitsU32(max, percent);
    var product: u32 := max * percent;  // Rust panics on overflow; it cannot happen here
    var d := product / 100;
    assert percent <= 100 ==> d <= max by {
      if percent <= 100 { PercentOfAtMost(max, percent); }
    }
    AsU16(d)
  }

  /** The widest intermediate product, 65535 * 255, is below 2^32. */
  lemma ProductFitsU32(max: u16, percent: u8)
    ensures max * percent <= U32_MAX
  {
    assert max * percent <= U16_MAX * percent;
    assert U16_MAX * percent <= U16_MAX * U8_MAX;
  }

  /** Truncating division by 100 of `max * percent` stays within `max`. */
  lemma PercentOfAtMost(max: nat, percent: nat)
    requires percent <= 100
    ensures max * percent / 100 <= max
  {
    assert max * percent <= max * 100;
  }

  /** The calls one `tone(f, p, d)` makes, given the maximum duty the channel
      reports after retuning and whether it accepted the frequency. */
  function ToneCalls(f: u32, p: u8, d: u32, max: u16, accepted: bool): (calls: seq<Call>)
    ensures |calls| > 0 && calls[0] == SetFreq(f)
    ensures accepted <==> |calls| > 1
  {
    if accepted then [SetFreq(f), ReadMax(max), SetDuty(DutyFor(max, p)), DelayMs(d), SetDuty(0)]
    else [SetFreq(f)]
  }

  datatype Option<T> = None | Some(value: T)

  /** The duty most recently written in a trace, if any: what the channel
      is outputting (`Some(0)` is silence). */
  function LastDuty(calls: seq<Call>): Option<u16>
  {
    if calls == [] then None
    else if calls[|calls| - 1].SetDuty? then Some(calls[|calls| - 1].duty)
    else LastDuty(calls[..|calls| - 1])
  }

  function DelayOf(c: Call): seq<u32>
  {
    if c.DelayMs? then [c.ms] else []
  }

  function DutyOf(c: Call): seq<u16>
  {
    if c.SetDuty? then [c.duty] else []
  }

  /** The durations the delay provider received, in order. */
  function Delays(calls: seq<Call>): seq<u32>
  {
    if calls == [] then []
    else DelayOf(calls[0]) + Delays(calls[1..])
  }

  /** The duty values written to the channel, in order. */
  function DutyWrites(calls: seq<Call>): seq<u16>
  {
    if calls == [] then []
    else DutyOf(calls[0]) + DutyWrites(calls[1..])
  }

  // ---- The duty formula ----

  /** Over the documented range 0..=100 the `as u16` cast loses nothing: the
      duty is exactly the truncated percentage of `max`, and at most `max`. */
  lemma DutyExact(max: u16, percent: u8)
    requires percent <= 100
    ensures DutyFor(max, percent) == max * percent / 100
    ensures DutyFor(max, percent) <= max
  {
    PercentOfAtMost(max, percent);
  }

  /** 0 % is silence and 100 % is the full maximum. */
  lemma DutyEndpoints(max: u16)
    ensures DutyFor(max, 0) == 0
    ensures DutyFor(max, 100) == max
  {
    DutyExact(max, 0);
    DutyExact(max, 100);
  }

  /** The test's expectation: half of `u16::MAX` truncates to 32767, not 32768. */
  lemma DutyHalfOfFullScale()
    ensures DutyFor(U16_MAX, 50) == 32767
  {
    DutyExact(U16_MAX, 50);
  }

  /** A louder percentage never gives a smaller duty, within 0..=100. */
  lemma DutyMonotone(max: u16, p1: u8, p2: u8)
    requires p1 <= p2 <= 100
    ensures DutyFor(max, p1) <= DutyFor(max, p2)
  {
    DutyExact(max, p1);
    DutyExact(max, p2);
    ScaledQuotientMonotone(max, p1, p2);
  }

  lemma ScaledQuotientMonotone(m: nat, p1: nat, p2: nat)
    requires p1 <= p2
    ensures m * p1 / 100 <= m * p2 / 100
  {
    var a, b := m * p1, m * p2;
    assert a <= b by {
      assert m * p2 == m * p1 + m * (p2 - p1);
    }
  }

  /** Above 100 % the product still fits in `u32`, but the `as u16` cast
      wraps: 101 % and 255 % of `u16::MAX` give duties below the 100 % one. */
  lemma DutyWrapsAbove100()
    ensures DutyFor(U16_MAX, 101) == 654
    ensures DutyFor(U16_MAX, 255) == 36042
    ensures DutyFor(U16_MAX, 255) < DutyFor(U16_MAX, 100)
  {
    DutyExact(U16_MAX, 100);
  }

  // ---- Traces ----

  /** The most recent duty write of a concatenation is the later part's,
      when it has one. */
  lemma {:induction false} LastDutyAppend(a: seq<Call>, b: seq<Call>)
    ensures LastDuty(a + b) == if LastDuty(b).Some? then LastDuty(b) else LastDuty(a)
    decreases |b|
  {
    if b == [] {
      assert a + b == a;
    } else if !b[|b| - 1].SetDuty? {
      assert (a + b)[..|a + b| - 1] == a + b[..|b| - 1];
      LastDutyAppend(a, b[..|b| - 1]);
    }
  }

  lemma {:induction false} DelaysAppend(a: seq<Call>, b: seq<Call>)
    ensures Delays(a + b) == Delays(a) + Delays(b)
  {
    if a == [] {
      assert a + b == b;
    } else {
      var ab := a + b;
      assert ab[0] == a[0] && ab[1..] == a[1..] + b;
      DelaysAppend(a[1..], b);
      calc {
        Delays(ab);
        DelayOf(a[0]) + Delays(a[1..] + b);
        DelayOf(a[0]) + (Delays(a[1..]) + Delays(b));
        (DelayOf(a[0]) + Delays(a[1..])) + Delays(b);
      }
    }
  }

  lemma {:induction false} DutyWritesAppend(a: seq<Call>, b: seq<Call>)
    ensures DutyWrites(a + b) == DutyWrites(a) + DutyWrites(b)
  {
    if a == [] {
      assert a + b == b;
    } else {
      var ab := a + b;
      assert ab[0] == a[0] && ab[1..] == a[1..] + b;
      DutyWritesAppend(a[1..], b);
      calc {
        DutyWrites(ab);
        DutyOf(a[0]) + DutyWrites(a[1..] + b);
        DutyOf(a[0]) + (DutyWrites(a[1..]) + DutyWrites(b));
        (DutyOf(a[0]) + DutyWrites(a[1..])) + DutyWrites(b);
      }
    }
  }

  /** Whatever the channel was doing before, an accepted tone sounds at the
      requested duty while the delay runs and leaves the channel silent. */
  lemma ToneSoundsThenSilences(before: seq<Call>, f: u32, p: u8, d: u32, max: u16)
    ensures var calls := ToneCalls(f, p, d, max, true);
      && LastDuty(before + calls[..4]) == Some(DutyFor(max, p))
      && calls[3] == DelayMs(d)
      && LastDuty(before + calls) == Some(0)
  {
    var calls := ToneCalls(f, p, d, max, true);
    LastDutyAppend(before, calls[..4]);
    LastDutyAppend(before, calls);
  }

  /** An accepted tone writes exactly two duties, the requested one then
      zero, and asks the delay provider for exactly `d` milliseconds once. */
  lemma ToneWritesAndWaits(f: u32, p: u8, d: u32, max: u16)
    ensures DutyWrites(ToneCalls(f, p, d, max, true)) == [DutyFor(max, p), 0]
    ensures Delays(ToneCalls(f, p, d, max, true)) == [d]
  {
    var calls := ToneCalls(f, p, d, max, true);
    var tail := [DelayMs(d), SetDuty(0)];
    assert DutyWrites(tail) == [0] && Delays(tail) == [d] by {
      assert tail[1..] == [SetDuty(0)];
      assert [SetDuty(0)][1..] == [];
      assert DutyWrites([SetDuty(0)]) == [0];
      assert Delays([SetDuty(0)]) == [];
    }
    var middle := [SetDuty(DutyFor(max, p))] + tail;
    assert DutyWrites(middle) == [DutyFor(max, p), 0] && Delays(middle) == [d] by {
      assert middle[1..] == tail;
    }
    assert calls == [SetFreq(f), ReadMax(max)] + middle;
    DutyWritesAppend([SetFreq(f), ReadMax(max)], middle);
    DelaysAppend([SetFreq(f), ReadMax(max)], middle);
    assert [SetFreq(f), ReadMax(max)][1..] == [ReadMax(max)];
    assert [ReadMax(max)][1..] == [];
  }

  /** A rejected frequency stops the tone before any sound: no duty write, no
      delay, and the channel keeps whatever duty it had. */
  lemma ToneRejectedStartsNothing(before: seq<Call>, f: u32, p: u8, d: u32, max: u16)
    ensures DutyWrites(ToneCalls(f, p, d, max, false)) == []
    ensures Delays(ToneCalls(f, p, d, max, false)) == []
    ensures LastDuty(before + ToneCalls(f, p, d, max, false)) == LastDuty(before)
  {
    LastDutyAppend(before, ToneCalls(f, p, d, max, false));
  }

  /** The sequencer, owning a channel and a delay provider that share one log. */
  class Buzzer {
    const pwm: Channel
    const delay: Delay

    ghost predicate Valid()
    {
      pwm.log == delay.log
    }

    /** `Buzzer::new`: forces the channel silent, ignoring the result. */
    constructor (pwm: Channel, delay: Delay)
      requires pwm.log == delay.log
      modifies pwm.log
      ensures Valid() && this.pwm == pwm && this.delay == delay
      ensures pwm.log.events == old(pwm.log.events) + [SetDuty(0)]
      ensures LastDuty(pwm.log.events) == Some(0)
    {
      var ignored := pwm.SetDutyCycle(0);
      this.pwm := pwm;
      this.delay := delay;
    }

    /** `Buzzer::tone`: retune, read the maximum, sound at `dutyPercent`
        of it for `durationMs`, then silence. */
    method Tone(frequencyHz: u32, dutyPercent: u8, durationMs: u32) returns (r: Outcome)
      requires Valid()
      modifies pwm.log
      ensures r == (if pwm.frequencyFails then Err else Ok)
      ensures pwm.log.events
           == old(pwm.log.events) + ToneCalls(frequencyHz, dutyPercent, durationMs, pwm.max, r == Ok)
    {
      r := pwm.SetFrequency(frequencyHz);
      if r == Err {
        return;
      }
      var max := pwm.MaxDutyCycle();
      var duty := DutyFor(max, dutyPercent);
      var ignored := pwm.SetDutyCycle(duty);
      delay.DelayMilliseconds(durationMs);
      ignored := pwm.SetDutyCycle(0);
      r := Ok;
    }
  }

  /** The unit test of the driver: a channel reporting `u16::MAX`, then
      `new` and `tone(440, 50, 200)`, whose result the test unwraps. */
  method ToneScenario() returns (log: Recorder, r: Outcome)
    ensures r == Ok
    ensures log.events == [SetDuty(0), SetFreq(440), ReadMax(U16_MAX), SetDuty(U16_MAX / 2), DelayMs(200), SetDuty(0)]
  {
    log := new Recorder();
    var pwm := new Channel(log, U16_MAX, false, false);
    var delay := new Delay(log);
    var buzzer := new Buzzer(pwm, delay);
    r := buzzer.Tone(440, 100 / 2, 200);
    DutyHalfOfFullScale();
  }
}
