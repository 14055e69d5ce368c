/** The ATmega16 Timer1 driver of src/firmware/buzzer_pwm.rs, and what
    happens to its compare register when the tone sequencer drives it.

    The hardware is reduced to the registers the driver writes: DDRD and
    PORTD (PD4, the OC1B pin, is bit 4 of both), TCCR1B and OCR1A, plus the
    cached maximum duty. A ghost log records every register write in order. */
module BuzzerPwmFirmware {
  import opened Ints
  import opened BuzzerDriver

  /** MCU clock in Hz. */
  const F_CPU: u32 := 16_000_000

  /** The divisor the code applies to `F_CPU`. The code's comments take it
      to be a prescaler of 64 times a toggle factor of 2; the model assumes
      neither and keeps only the constant. */
  const TOGGLE_PRESCALE: nat := 128

  /** `F_CPU / 128` = 125000, the dividend of the compare-value formula. */
  const TICK_RATE: nat := F_CPU / TOGGLE_PRESCALE

  /** Bit numbers inside TCCR1B and PORTD/DDRD. */
  const WGM12: nat := 3
  const CS11: nat := 1
  const PD4: nat := 4

  /** `(1 << WGM12) | (1 << CS11)`, written literally by `new`. */
  const TCCR1B_INIT: u8 := 0x0A

  /** `1 << k` for a bit number of a byte register. */
  function Bit(k: nat): u8
    requires k < 8
  {
    [1, 2, 4, 8, 16, 32, 64, 128][k]
  }

  /** Whether bit `k` of the byte `v` is set. */
  predicate BitSet(v: u8, k: nat)
    requires k < 8
  {
    (v / Bit(k)) % 2 == 1
  }

  /** One register write performed by the driver. */
  datatype RegWrite =
    | Ddrd(ddrd: u8)
    | Portd(portd: u8)
    | Tccr1b(tccr1b: u8)
    | Ocr1a(ocr1a: u16)

  /** The compare value `set_frequency` writes for `hz`:
      `((F_CPU / 128) / hz).saturating_sub(1) as u16`. A zero `hz` would
      divide by zero, so it is excluded. */
  function OcrForFrequency(hz: u32): (top: u16)
    requires hz > 0
    ensures hz >= 2 ==> top <= TICK_RATE / 2
  {
    var ticks := TICK_RATE / hz;
    assert hz >= 2 ==> ticks <= TICK_RATE / 2 by {
      if hz >= 2 { DivByLarger(TICK_RATE, 2, hz); }
    }
    AsU16(SaturatingSub(ticks, 1))
  }

  lemma DivByLarger(n: nat, k1: nat, k2: nat)
    requires 0 < k1 <= k2
    ensures n / k2 <= n / k1
  {
    var q := n / k2;
    assert q * k1 <= q * k2 <= n;
    DivLowerBound(n, k1, q);
  }

  /** `q * k <= n` makes `q` at most the quotient `n / k`. */
  lemma DivLowerBound(n: nat, k: nat, q: nat)
    requires 0 < k && q * k <= n
    ensures q <= n / k
  {
    var r := n / k;
    assert n == r * k + n % k && n % k < k;
    var d: int := r + 1 - q;
    Distribute(r + 1, q, k);
    PositiveFactor(d, k);
  }

  lemma Distribute(a: int, b: int, k: int)
    ensures (a - b) * k == a * k - b * k
  {
  }

  lemma PositiveFactor(d: int, k: int)
    requires k > 0 && d * k > 0
    ensures d > 0
  {
  }

  // ---- The frequency formula ----

  /** From 2 Hz up the cast cannot wrap: the value is the tick count minus
      one, and the saturating subtraction turns frequencies above 125 kHz
      (zero ticks) into 0. */
  lemma OcrFromTwoHz(hz: u32)
    requires hz >= 2
    ensures OcrForFrequency(hz)
         == if hz <= TICK_RATE then TICK_RATE / hz - 1 else 0
  {
    var ticks := TICK_RATE / hz;
    DivByLarger(TICK_RATE, 2, hz);
    assert ticks <= TICK_RATE / 2 == 62500;
    var sub := SaturatingSub(ticks, 1);
    assert sub <= U16_MAX;
    assert OcrForFrequency(hz) == AsU16(sub) == sub;
    if hz <= TICK_RATE {
      DivLowerBound(TICK_RATE, hz, 1);
      assert sub == ticks - 1;
    } else {
      assert ticks == 0;
    }
  }

  /** The compare value plus one is exactly the quotient `125000 / hz`:
      `n * hz <= 125000 < (n + 1) * hz`. `125000 / n` is the frequency the
      code's constant 128 intends (a prescaler of 64 assumed, times 2); what
      the hardware produces is not modelled. */
  lemma OcrQuantization(hz: u32)
    requires 2 <= hz <= TICK_RATE
    ensures var n := OcrForFrequency(hz) + 1;
      n * hz <= TICK_RATE < (n + 1) * hz
  {
    OcrFromTwoHz(hz);
    var n := OcrForFrequency(hz) + 1;
    assert n == 125000 / hz;
    assert 125000 == n * hz + 125000 % hz;
  }

  /** A higher pitch never needs a larger compare value, from 2 Hz up. */
  lemma OcrDecreasing(h1: u32, h2: u32)
    requires 2 <= h1 <= h2
    ensures OcrForFrequency(h2) <= OcrForFrequency(h1)
  {
    OcrFromTwoHz(h1);
    OcrFromTwoHz(h2);
    DivByLarger(TICK_RATE, h1, h2);
  }

  /** 440 Hz gives 283, the lowest tone of the main loop (400 Hz) 311. */
  lemma OcrExamples()
    ensures OcrForFrequency(440) == 283
    ensures OcrForFrequency(400) == 311
  {
    OcrFromTwoHz(440);
    OcrFromTwoHz(400);
  }

  /** At 1 Hz the 124999 ticks do not fit in 16 bits and the cast wraps
      instead of clamping: the value is 59463, not 65535, and is smaller than
      the value for 2 Hz, so the decreasing order above breaks. */
  lemma OcrWrapsAtOneHz()
    ensures OcrForFrequency(1) == 59463
    ensures OcrForFrequency(1) < OcrForFrequency(2)
  {
    OcrFromTwoHz(2);
  }

  // ---- The driver ----

  class BuzzerPwm {
    var ddrd: u8
    var portd: u8
    var tccr1b: u8
    var ocr1a: u16
    var max: u16
    ghost var writes: seq<RegWrite>

    /** The cached maximum is `u16::MAX` for the driver's whole life. */
    ghost predicate Valid()
      reads this
    {
      max == U16_MAX
    }

    /** PD4 is configured as an output. */
    predicate Pd4Output()
      reads this
    {
      BitSet(ddrd, PD4)
    }

    /** PD4 is driven high. */
    predicate Pd4High()
      reads this
    {
      BitSet(portd, PD4)
    }

    /** `BuzzerPwm::new`: PD4 becomes an output driven low, then Timer1 gets
        its control bits and a zero compare value. Each PAC `write` starts
        from the register's reset value, 0. */
    constructor ()
      ensures Valid()
      ensures Pd4Output() && !Pd4High()
      ensures ddrd == Bit(PD4) && portd == 0
      ensures tccr1b == Bit(WGM12) + Bit(CS11) == TCCR1B_INIT
      ensures ocr1a == 0
      ensures writes == [Ddrd(Bit(PD4)), Portd(0), Tccr1b(TCCR1B_INIT), Ocr1a(0)]
    {
      ddrd := Bit(PD4);
      writes := [Ddrd(ddrd)];
      portd := 0;
      writes := writes + [Portd(portd)];
      tccr1b := TCCR1B_INIT;
      writes := writes + [Tccr1b(tccr1b)];
      ocr1a := 0;
      writes := writes + [Ocr1a(ocr1a)];
      max := U16_MAX;
    }

    /** `SetFrequency::set_frequency`: writes the compare value for `hz`
        and nothing else; never fails. */
    method SetFrequency(hz: u32) returns (r: Outcome)
      requires Valid() && hz > 0
      modifies this
      ensures Valid() && r == Ok
      ensures ocr1a == OcrForFrequency(hz) == Ocr1aAfter(old(ocr1a), SetFreq(hz))
      ensures ddrd == old(ddrd) && portd == old(portd) && tccr1b == old(tccr1b) && max == old(max)
      ensures writes == old(writes) + [Ocr1a(ocr1a)]
    {
      var top := OcrForFrequency(hz);
      ocr1a := top;
      writes := writes + [Ocr1a(top)];
      r := Ok;
    }

    /** `SetDutyCycle::max_duty_cycle`: the cached `u16::MAX`. */
    method MaxDutyCycle() returns (m: u16)
      requires Valid()
      ensures m == U16_MAX
    {
      m := max;
    }

    /** `SetDutyCycle::set_duty_cycle`: writes `duty` verbatim into the same
        OCR1A register, overwriting the frequency value; never fails. */
    method SetDutyCycle(duty: u16) returns (r: Outcome)
      requires Valid()
      modifies this
      ensures Valid() && r == Ok
      ensures ocr1a == duty == Ocr1aAfter(old(ocr1a), SetDuty(duty))
      ensures ddrd == old(ddrd) && portd == old(portd) && tccr1b == old(tccr1b) && max == old(max)
      ensures writes == old(writes) + [Ocr1a(duty)]
    {
      ocr1a := duty;
      writes := writes + [Ocr1a(duty)];
      r := Ok;
    }
  }

  // ---- The sequencer driving Timer1 ----

  /** No call in the trace asks this driver for 0 Hz. */
  predicate NoZeroFrequency(calls: seq<Call>)
  {
    forall i :: 0 <= i < |calls| && calls[i].SetFreq? ==> calls[i].hz > 0
  }

  /** OCR1A after `BuzzerPwm` receives one channel call, as its methods
      state: a duty write stores the duty verbatim, a frequency write the
      compare value for it, and reading the maximum or waiting leave the
      register alone. */
  function Ocr1aAfter(ocr: u16, c: Call): (r: u16)
    requires c.SetFreq? ==> c.hz > 0
    ensures !c.SetFreq? && !c.SetDuty? ==> r == ocr
    ensures c.SetDuty? ==> r == c.duty
    ensures c.SetFreq? && c.hz >= 2 ==> r == if c.hz <= TICK_RATE then TICK_RATE / c.hz - 1 else 0
  {
    match c
    case SetFreq(hz) =>
      assert hz >= 2 ==> OcrForFrequency(hz) == if hz <= TICK_RATE then TICK_RATE / hz - 1 else 0 by {
        if hz >= 2 { OcrFromTwoHz(hz); }
      }
      OcrForFrequency(hz)
    case SetDuty(duty) => duty
    case ReadMax(_) => ocr
    case DelayMs(_) => ocr
  }

  /** No call in the trace retunes the channel. */
  predicate NoFrequencyCall(calls: seq<Call>)
  {
    forall i :: 0 <= i < |calls| ==> !calls[i].SetFreq?
  }

  /** OCR1A after a whole trace of calls, starting from `ocr`. A trace that
      ends with a duty write leaves that duty; a trace without frequency
      writes leaves its last duty (the sequencer's view of the channel), or
      `ocr` when it writes none. */
  function Ocr1aAfterAll(ocr: u16, calls: seq<Call>): (r: u16)
    requires NoZeroFrequency(calls)
    ensures calls != [] && calls[|calls| - 1].SetDuty? ==> r == calls[|calls| - 1].duty
    ensures NoFrequencyCall(calls) ==> r == match LastDuty(calls) case Some(d) => d case None => ocr
    decreases |calls|
  {
    if calls == [] then ocr
    else
      var rest := calls[1..];
      assert NoZeroFrequency(rest) by {
        assert forall i :: 0 <= i < |rest| ==> rest[i] == calls[i + 1];
      }
      assert NoFrequencyCall(calls) ==> NoFrequencyCall(rest) by {
        assert forall i :: 0 <= i < |rest| ==> rest[i] == calls[i + 1];
      }
      assert calls == [calls[0]] + rest;
      LastDutyAppend([calls[0]], rest);
      assert [calls[0]][..0] == [];
      Ocr1aAfterAll(Ocr1aAfter(ocr, calls[0]), rest)
  }

  lemma {:induction false} Ocr1aAfterAppend(ocr: u16, a: seq<Call>, b: seq<Call>)
    requires NoZeroFrequency(a + b)
    ensures NoZeroFrequency(a) && NoZeroFrequency(b)
    ensures Ocr1aAfterAll(ocr, a + b) == Ocr1aAfterAll(Ocr1aAfterAll(ocr, a), b)
    decreases |a|
  {
    assert forall i :: 0 <= i < |a| ==> (a + b)[i] == a[i];
    assert forall i :: 0 <= i < |b| ==> (a + b)[|a| + i] == b[i];
    if a != [] {
      assert (a + b)[1..] == a[1..] + b;
      Ocr1aAfterAppend(Ocr1aAfter(ocr, a[0]), a[1..], b);
    } else {
      assert a + b == b;
    }
  }

  /** `Buzzer` over `BuzzerPwm`: whatever OCR1A held and whatever the
      frequency, while the delay runs OCR1A holds `65535 * p / 100` (the
      duty write overwrites the frequency value in the shared register), and
      it is 0 once `tone` returns. */
  lemma ToneOnTimer1(ocr: u16, f: u32, p: u8, d: u32)
    requires f > 0 && p <= 100
    ensures var calls := ToneCalls(f, p, d, U16_MAX, true);
      && NoZeroFrequency(calls)
      && calls[3] == DelayMs(d)
      && Ocr1aAfterAll(ocr, calls[..4]) == U16_MAX * p / 100
      && Ocr1aAfterAll(ocr, calls) == 0
  {
    var calls := ToneCalls(f, p, d, U16_MAX, true);
    DutyExact(U16_MAX, p);
    var duty := DutyFor(U16_MAX, p);
    var s := calls[..4];
    assert s == [SetFreq(f), ReadMax(U16_MAX), SetDuty(duty), DelayMs(d)];
    assert Ocr1aAfterAll(duty, s[3..]) == duty by {
      assert s[3..][1..] == [];
    }
    assert Ocr1aAfterAll(OcrForFrequency(f), s[2..]) == duty by {
      assert s[2..][1..] == s[3..];
    }
    assert Ocr1aAfterAll(OcrForFrequency(f), s[1..]) == duty by {
      assert s[1..][1..] == s[2..];
    }
    assert Ocr1aAfterAll(ocr, s) == duty;
    Ocr1aAfterAppend(ocr, calls[..4], calls[4..]);
    assert calls[..4] + calls[4..] == calls;
    assert calls[4..] == [SetDuty(0)];
    assert calls[4..][1..] == [];
  }

  /** `NoZeroFrequency` holds of a concatenation when it holds of both parts. */
  lemma NoZeroFrequencyConcat(a: seq<Call>, b: seq<Call>)
    requires NoZeroFrequency(a) && NoZeroFrequency(b)
    ensures NoZeroFrequency(a + b)
  {
    assert forall i :: 0 <= i < |a + b| ==> (a + b)[i] == if i < |a| then a[i] else b[i - |a|];
  }

  /** The frequency of the firmware loop's `j`-th tone: `(0u32..8).cycle()`
      gives `i = j % 8`, and the tone is at `400 + i * 120` Hz. */
  function LoopFrequency(j: nat): (f: u32)
    ensures 400 <= f <= 1240
  {
    400 + (j % 8) * 120
  }

  /** The channel calls the firmware makes before its `k`-th tone:
      `Buzzer::new`'s silencing write, then `k` tones at 50 % for 100 ms. */
  function MainLoopCalls(k: nat): (calls: seq<Call>)
    ensures NoZeroFrequency(calls)
    ensures |calls| == 1 + 5 * k
  {
    if k == 0 then [SetDuty(0)]
    else
      var tone := ToneCalls(LoopFrequency(k - 1), 50, 100, U16_MAX, true);
      ToneOnTimer1(0, LoopFrequency(k - 1), 50, 100);
      NoZeroFrequencyConcat(MainLoopCalls(k - 1), tone);
      MainLoopCalls(k - 1) + tone
  }

  /** The firmware's main loop, from `BuzzerPwm::new` (OCR1A = 0): before
      every tone OCR1A is 0, and during the delay of the `k`-th tone,
      whatever tones came before, it holds 32767. */
  lemma {:induction false} MainLoopTone(k: nat)
    ensures var before := MainLoopCalls(k);
      var tone := ToneCalls(LoopFrequency(k), 50, 100, U16_MAX, true);
      && NoZeroFrequency(before + tone[..4])
      && Ocr1aAfterAll(0, before) == 0
      && Ocr1aAfterAll(0, before + tone[..4]) == 32767
  {
    var before := MainLoopCalls(k);
    var tone := ToneCalls(LoopFrequency(k), 50, 100, U16_MAX, true);
    ToneOnTimer1(0, LoopFrequency(k), 50, 100);
    NoZeroFrequencyConcat(before, tone[..4]);
    if k > 0 {
      var previous := ToneCalls(LoopFrequency(k - 1), 50, 100, U16_MAX, true);
      NoZeroFrequencyConcat(MainLoopCalls(k - 1), previous);
      Ocr1aAfterAppend(0, MainLoopCalls(k - 1), previous);
      ToneOnTimer1(Ocr1aAfterAll(0, MainLoopCalls(k - 1)), LoopFrequency(k - 1), 50, 100);
    }
    Ocr1aAfterAppend(0, before, tone[..4]);
    ToneOnTimer1(Ocr1aAfterAll(0, before), LoopFrequency(k), 50, 100);
  }
}
