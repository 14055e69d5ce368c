# Buzzer driver: tone sequencer and ATmega16 Timer1 driver

This project models the two pieces of a small embedded buzzer driver that
carry behaviour:

- **`Buzzer`** (`src/drivers/buzzer.rs`). A tone sequencer that is generic
  over a PWM channel and a delay provider. `new` forces the channel silent.
  `tone(f, p, d)` then does six things in order:
  1. retunes the channel to `f`, and propagates any error;
  2. reads the maximum duty;
  3. computes `max * p / 100`, truncating, then casts it to `u16`;
  4. writes that duty;
  5. waits `d` ms;
  6. writes duty 0.
- **`BuzzerPwm`** (`src/firmware/buzzer_pwm.rs`). The concrete Timer1
  channel. `new` configures PD4 as a low output, writes `0x0A` to TCCR1B and
  0 to OCR1A. `set_frequency(hz)` writes
  `((16 000 000 / 128) / hz).saturating_sub(1) as u16` to OCR1A.
  `set_duty_cycle(d)` writes `d` to the same OCR1A register.
  `max_duty_cycle` returns the cached `u16::MAX`.

Files:

- `ints.dfy` (module `Ints`): the `u8`/`u16`/`u32` widths, the truncating
  `as u16` cast and `u32::saturating_sub`.
- `buzzer.dfy` (module `BuzzerDriver`): the sequencer. There are no traits
  here, so the generic channel and delay provider are recording objects, in
  the manner of the crate's own test mock. Every call they receive goes, in
  order, into one shared `Recorder`. `Buzzer.Tone` is proved to append
  exactly `ToneCalls(...)` to that trace. The lemmas then state what that
  trace means:
  - the duty arithmetic;
  - sounding while the delay runs;
  - silence on return;
  - exactly one delay of `d` ms;
  - no sound when the frequency is rejected.
- `buzzer_pwm.dfy` (module `BuzzerPwmFirmware`):
  - the Timer1 driver as a class over the registers it writes (DDRD, PORTD,
    TCCR1B, OCR1A), with the cached `max` and a ghost log of register writes;
  - the compare-value formula `OcrForFrequency` and lemmas about it;
  - `Buzzer` driving `BuzzerPwm`, modelled by replaying a call trace on
    OCR1A, as `src/main.rs` composes them.

Facts about the code that the model makes explicit:

- **1 Hz.** `saturating_sub` saturates only at the low end, where the tick
  count is 0. At `hz = 1` the `as u16` cast wraps 124999 to 59463
  (`OcrWrapsAtOneHz`). As the frequency falls the compare value rises
  (41665 at 3 Hz, 62499 at 2 Hz), but below 2 Hz it drops instead of
  rising, so the order `OcrDecreasing` proves breaks at 1 Hz.
- **Duty writes.** `set_duty_cycle` writes its argument into OCR1A
  verbatim, the register that `set_frequency` also writes
  (`src/firmware/buzzer_pwm.rs:67`, `:86`). The doc comment at
  `src/firmware/buzzer_pwm.rs:83-84` points out that this register sets the
  period.
- **TCCR1B.** The code's comments say that `(1 << 3) | (1 << 1)` selects a
  prescaler of 64 (`src/firmware/buzzer_pwm.rs:22-23`, `:30`, `:43`). The
  constant 128 in the formula at line 66 assumes the same thing (comment at
  lines 63-64). The model records the value written, `0x0A`, and the
  constant 128. It does not claim which prescaler the hardware then uses.
- **Failing `set_frequency`.** The `SetFrequency` trait declares
  `set_frequency` as returning `Result<(), Infallible>`
  (`src/drivers/buzzer.rs:26`), so no implementation can fail. The model
  keeps a `frequencyFails` flag on the generic channel anyway, to cover the
  early return of the `?` at line 67. `Tone` returns `Ok` exactly when the
  flag is false.

## Model

| member | source | states |
|---|---|---|
| `Ints.AsU16` | src/drivers/buzzer.rs:69 | Rust's `as u16`: values up to 65535 are unchanged, and the result is congruent to its input modulo 2^16. This is a wrap and rules out a clamp to 65535. `OcrWrapsAtOneHz` and `DutyWrapsAbove100` show the difference on concrete inputs; the same cast is used at src/firmware/buzzer_pwm.rs:66 |
| `Ints.SaturatingSub` | src/firmware/buzzer_pwm.rs:66 | `u32::saturating_sub`: never above `a`; exact `a - b` when `b <= a`; 0 otherwise |
| `BuzzerDriver.Channel.SetFrequency` | src/drivers/buzzer.rs:11-27 | a channel's `set_frequency` is recorded as one `SetFreq(hz)` call and answers `Ok` or `Err` as the channel decides |
| `BuzzerDriver.Channel.MaxDutyCycle` | src/drivers/buzzer.rs:113-118 | `max_duty_cycle` answers the channel's maximum and is recorded with the value answered, as the mock's transactions are |
| `BuzzerDriver.Channel.SetDutyCycle` | src/drivers/buzzer.rs:113-118 | `set_duty_cycle(d)` is recorded as one `SetDuty(d)` call |
| `BuzzerDriver.Delay.DelayMilliseconds` | src/drivers/buzzer.rs:97-101 | the delay provider records the milliseconds it is given, once per call |
| `BuzzerDriver.Buzzer.constructor` | src/drivers/buzzer.rs:51-54 | `new` makes exactly one channel call, `set_duty_cycle(0)`, whatever it answers; it keeps the channel and delay given; afterwards the channel's last duty is 0 |
| `BuzzerDriver.Buzzer.Tone` | src/drivers/buzzer.rs:61-74 | `tone` returns `Ok` exactly when `set_frequency` succeeds; the calls it makes are exactly `ToneCalls`, in that order, with nothing interleaved; a duty-write failure changes nothing |
| `BuzzerDriver.ToneCalls` | src/drivers/buzzer.rs:67-72 | the call sequence of one tone always starts with `SetFreq(f)`; it goes past that call exactly when the frequency is accepted |
| `BuzzerDriver.DutyFor` | src/drivers/buzzer.rs:69 | the duty for `p <= 100` never exceeds `max` |
| `BuzzerDriver.ProductFitsU32` | src/drivers/buzzer.rs:69 | the intermediate `max * p` of any `u16` and `u8` fits in `u32`, so the `u32` multiplication never overflows (a debug build would panic); `DutyFor` computes the product as a `u32` on this fact |
| `BuzzerDriver.DutyExact` | src/drivers/buzzer.rs:59-69 | over the documented range 0..=100 the cast loses nothing: the duty is exactly `max * p / 100` (truncated) and at most `max` |
| `BuzzerDriver.DutyEndpoints` | src/drivers/buzzer.rs:69 | 0 % gives duty 0 and 100 % gives exactly `max` |
| `BuzzerDriver.DutyHalfOfFullScale` | src/drivers/buzzer.rs:113-116 | with `max = 65535`, 50 % gives 32767 (`u16::MAX / 2`), not 32768 |
| `BuzzerDriver.DutyMonotone` | src/drivers/buzzer.rs:59-69 | within 0..=100 a larger percentage never gives a smaller duty |
| `BuzzerDriver.DutyWrapsAbove100` | src/drivers/buzzer.rs:69 | above 100 % the `as u16` cast wraps: 101 % and 255 % of 65535 give 654 and 36042, both below the 100 % duty |
| `BuzzerDriver.ToneSoundsThenSilences` | src/drivers/buzzer.rs:70-72 | after any earlier calls, an accepted tone has the requested duty as the channel's last duty while the delay is issued, and 0 once it returns |
| `BuzzerDriver.ToneWritesAndWaits` | src/drivers/buzzer.rs:67-72 | an accepted tone writes exactly two duties, the computed one and then 0, and gives the delay provider exactly `d`, once |
| `BuzzerDriver.ToneRejectedStartsNothing` | src/drivers/buzzer.rs:67 | a rejected frequency ends the tone with no duty write and no delay; the channel's last duty is unchanged |
| `BuzzerDriver.ToneScenario` | src/drivers/buzzer.rs:111-127 | the unit test's scenario: `new`, then `tone(440, 50, 200)`, on a channel reporting 65535; the tone returns `Ok`, which the test unwraps. The test's mock checks the four duty and max transactions `set_duty_cycle(0)`, `max_duty_cycle() = 65535`, `set_duty_cycle(32767)`, `set_duty_cycle(0)`, and the last delay of 200 ms. The model's trace also records the `SetFreq(440)` call and where the delay falls: `SetDuty(0), SetFreq(440), ReadMax(65535), SetDuty(32767), DelayMs(200), SetDuty(0)` |
| `BuzzerPwmFirmware.OcrForFrequency` | src/firmware/buzzer_pwm.rs:66 | the compare value for `hz > 0` (zero would divide by zero); from 2 Hz up it is at most 62500 |
| `BuzzerPwmFirmware.OcrFromTwoHz` | src/firmware/buzzer_pwm.rs:66 | for `hz >= 2` no wrap occurs: the value is `125000 / hz - 1`, and 0 above 125 kHz, where the subtraction saturates |
| `BuzzerPwmFirmware.OcrQuantization` | src/firmware/buzzer_pwm.rs:63-66 | for 2 Hz..125 kHz, `n = OCR1A + 1` is exactly `125000 / hz` (`n * hz <= 125000 < (n + 1) * hz`). `125000 / n` is the frequency that the code's constant 128 intends, assuming a prescaler of 64 times 2. What the hardware produces is not modelled |
| `BuzzerPwmFirmware.OcrDecreasing` | src/firmware/buzzer_pwm.rs:66 | from 2 Hz up, a higher frequency never gives a larger compare value |
| `BuzzerPwmFirmware.OcrExamples` | src/firmware/buzzer_pwm.rs:66 | 440 Hz gives 283 and 400 Hz gives 311 |
| `BuzzerPwmFirmware.OcrWrapsAtOneHz` | src/firmware/buzzer_pwm.rs:66 | at 1 Hz the cast wraps 124999 to 59463 instead of clamping, which is below the 2 Hz value |
| `BuzzerPwmFirmware.BuzzerPwm.constructor` | src/firmware/buzzer_pwm.rs:33-51 | `new` performs these writes in this order: DDRD = PD4 only, PORTD = 0, TCCR1B = 0x0A, OCR1A = 0. PD4 ends as an output driven low and `max = u16::MAX` |
| `BuzzerPwmFirmware.BuzzerPwm.SetFrequency` | src/firmware/buzzer_pwm.rs:65-69 | requires `hz > 0`; writes `OcrForFrequency(hz)` into OCR1A and changes nothing else, `max` included; returns `Ok` |
| `BuzzerPwmFirmware.BuzzerPwm.MaxDutyCycle` | src/firmware/buzzer_pwm.rs:77-79 | always `u16::MAX` |
| `BuzzerPwmFirmware.BuzzerPwm.SetDutyCycle` | src/firmware/buzzer_pwm.rs:85-88 | writes `duty` verbatim into OCR1A, overwriting any frequency value; changes nothing else and returns `Ok` |
| `BuzzerPwmFirmware.Ocr1aAfter` | src/firmware/buzzer_pwm.rs:65-88 | OCR1A after one channel call to `BuzzerPwm`. A duty write stores the duty verbatim. A frequency write of `hz >= 2` stores `125000 / hz - 1`, or 0 above 125 kHz. Reading the maximum or waiting leaves the register alone. `BuzzerPwm.SetFrequency` and `BuzzerPwm.SetDutyCycle` are proved equal to it |
| `BuzzerPwmFirmware.Ocr1aAfterAll` | src/firmware/buzzer_pwm.rs:65-88 | OCR1A after a trace of calls. A trace that ends with a duty write leaves that duty. A trace with no frequency write leaves its last duty, as `BuzzerDriver.LastDuty` reads it, or the starting value if it writes no duty |
| `BuzzerPwmFirmware.Ocr1aAfterAppend` | src/firmware/buzzer_pwm.rs:65-88 | the register effect of two call sequences run one after the other is their composition |
| `BuzzerPwmFirmware.ToneOnTimer1` | src/main.rs:11-17 | when `Buzzer` drives `BuzzerPwm` with any frequency and `p <= 100`, OCR1A holds `65535 * p / 100` during the delay and 0 after `tone` |
| `BuzzerPwmFirmware.LoopFrequency` | src/main.rs:16-17 | the `j`-th tone of the loop is at `400 + 120 * (j % 8)` Hz, which lies in 400..1240 Hz and is never 0 |
| `BuzzerPwmFirmware.MainLoopCalls` | src/main.rs:11-17 | the calls before the `k`-th tone are `Buzzer::new`'s silencing write followed by `k` whole tones. That is `1 + 5k` calls, none of them at 0 Hz |
| `BuzzerPwmFirmware.MainLoopTone` | src/main.rs:11-19 | for every `k`, starting from `BuzzerPwm::new`'s OCR1A = 0, the real prefix of the loop (construction and then `k` earlier tones) leaves OCR1A at 0. During the delay of the `k`-th tone OCR1A holds 32767 |

## Left out

- The non-terminating loop of `src/main.rs` as a loop. `MainLoopTone`
  covers every finite prefix of it, as a trace. The `#[entry]` attribute
  and the `panic_halt` handler are not modelled.
- `src/firmware/shared/delay.rs`, the busy-wait delay. Its only effect is
  elapsed CPU time. The model's delay provider records the milliseconds it
  is asked for.
- `interrupt::free` and `Peripherals::take().unwrap()` in `BuzzerPwm::new`:
  the critical section and the one-time peripheral acquisition. Only the
  register values they lead to are modelled.
- The physical meaning of the registers. This covers the prescaler that
  TCCR1B = 0x0A selects, the missing COM1x output-mode bits, and whether PD4
  actually toggles. Registers are plain values here.
- The other bits of DDRD and PORTD. They are modelled as whole bytes with
  reset value 0, because the PAC `write` calls start from the reset value.
- The `embedded-hal` and `embedded-hal-mock` traits, and generic
  dispatch. Dafny traits are not used here. `Buzzer` runs over a recording
  channel, and `BuzzerPwm` is connected to it through the call trace
  (`Ocr1aAfter`, `ToneOnTimer1`), not by instantiating `Buzzer` with a
  `BuzzerPwm` object.
- `delay_ns` from `DelayNs`: the sequencer never calls it.
- `BuzzerDriver.Channel.SetFrequency`: leaves the channel's maximum
  unchanged. The interface would allow a retune to change it, but neither
  channel in the repository, the test mock or `BuzzerPwm`, does so.
- `BuzzerPwmFirmware.BuzzerPwm.SetFrequency`: requires `hz > 0`. In Rust,
  `set_frequency(0)` panics on the division by zero.
