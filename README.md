# RGB LED glow-ball firmware, modelled in Dafny

The firmware runs on an ATtiny2313 driving an RGB LED from pins 0-2 of port B.
There are two buttons on pins 0 and 1 of port D. It has three parts:

- A timer-0 overflow interrupt generates software PWM. An 8-bit counter is
  advanced on every interrupt. Pin `i` is driven high when the channel's
  stored PWM level `pwms[i]` is at most the counter.
- A button poller reports edges. It XORs the new 2-bit sample with the
  previous one. Changed bits that are now set are "pressed", changed bits
  that are now clear are "released".
- The main loop handles the modes.
  - In changing-colour mode (mode 0), each pass moves every channel one
    unit toward its target. When all three stood at their targets, it draws
    a new target from `rand() % 6 + 1`: bit set gives 0xFF, clear gives 0x00.
  - The mode button toggles between the modes.
  - The change button steps the speed (0, 0x40, 0x80, then 0 again) and
    blinks `(speed >> 6) + 1` times. In single-colour mode (mode 1) it steps
    the colour code through 1..7 instead.
  - `setColor` shows a code at once: bit set gives 0x00, clear gives 0xFF.

The program exists in two forms, and each is a class here.
- `software/rgb.c` is modelled by `Rgb.Device`.
- The older `rgb.c` is modelled by `RgbLegacy.Device`. Its `mode`, `color`
  and `speed` are globals initialised in the header. Its `setColor` reads
  the global `color`. Its interrupt keeps the port byte in a static `out`.
  Its main loop reuses `done` to hold the random code.

Both classes are proved against the same value-level specification.
- `Controller.State` is the device state as a value.
- `Controller.Iterate` is one pass of the main loop.
- `Controller.Tick` is one interrupt.
- `Pwm.PortOut` is the byte written to port B.

Each method's `ensures` ties the new state, read through the ghost
`Snapshot()`, to these functions. The lemmas prove what the firmware
promises about them.

Modules:
- `Bytes` (bytes.dfy): bit helpers.
- `Pwm`: the interrupt's output and duty cycle.
- `Buttons`: sampling and edge detection.
- `Colors`: fading, targets and colour codes.
- `Controller`: the state machine of the main loop.
- `Rgb` and `RgbLegacy`: the two programs.

Every `uint8_t` is a `bv8`, so the C wrap-around on `count++`, `done++`,
`speed += 0x40` and `color += 1` is part of the model.

Colour names. The code does not fix the LED's polarity. The model names
colours with one convention throughout: a pin driven high lights its LED.
- Level 0x00 keeps the pin high on every interrupt, so the channel is fully
  lit. Level 0xFF keeps it high on one interrupt in 256, so it is dark.
- "White" means all three channels at 0x00. "Dark" means all three at 0xFF.
- Under this convention `setColor(c)` lights the channels whose bit is set.
  Stepping by hand skips code 0, which would be dark.

Points about the code worth knowing:
- `setColor` writes only `pwms`, never the targets `newpwms`.
- `setColor` maps a set bit to level 0x00. The random target maps a set bit
  to 0xFF. So the same code shows complementary colours in the two modes
  (`Colors.ColorPwms`).
- The random draw yields codes 1..6, six codes in all. Its target is never
  white (code 0) and never dark (code 7).
- Stepping by hand shows codes 1..7. It never shows dark, and it shows white
  exactly at code 7 (`Colors.ManualColors`). White is therefore reachable
  only in single-colour mode.
- At power-on every channel and target is 0xFF, which is dark. The first
  pass therefore draws a target at once.
- The event that acts is `released`: a bit going from 1 to 0. With the
  port D pull-ups enabled, that is the moment the button is pushed down.

## Model

| member | source | states |
|---|---|---|
| Pwm.OutBitsBit | software/rgb.c:85-93 | after the loop has examined channels `0..n-1`, bit `i` of `out` is set exactly when `i < n` and `pwms[i] <= count` |
| Pwm.PortOut | software/rgb.c:85-96 | the byte written to port B has bit `i` (for each of the 3 channels) set exactly when `pwms[i] <= count`, and bits 3..7 clear |
| Pwm.CountAfterValue | software/rgb.c:82-85 | after `n` interrupts the 8-bit counter reads `(count + n) mod 256` |
| Pwm.TickBit | software/rgb.c:85-93 | on the `n`-th further interrupt channel `ch` is high exactly when `pwms[ch] <= (count + n) mod 256`, read as integers |
| Pwm.DutyCycle | software/rgb.c:82-93 | over any 256 consecutive interrupts, starting from any counter value, channel `ch` is driven high on exactly `256 - pwms[ch]` of them |
| Pwm.Extremes | software/rgb.c:90-92 | level 0 keeps the pin high on every interrupt; level 255 drives it high only when the counter reads 255 |
| Buttons.Sample | software/rgb.h:12 | the sample keeps the two button bits of PIND and clears every other bit |
| Buttons.Detect | software/rgb.c:117-120 | pressed is `~prev & cur` (0 to 1), released is `prev & ~cur` (1 to 0), no bit is both, and an unchanged sample gives no edge |
| Controller.PollReportsEdges | software/rgb.c:115-123 | a poll reports no button as both pressed and released, pressed only bits set in the new sample, released only bits set in the previous one; nothing when the sample is unchanged; it stores the sample as `pollState` and `pollStatePrev` and changes nothing else |
| Colors.ApproachMovesOneUnit | software/rgb.c:187-194 | a channel at its target is left alone; otherwise it moves by exactly one unit, without wrap-around, and its distance to the target drops by one |
| Colors.FadeConverges | software/rgb.c:185-195 | after `n` fade steps the distance to the target is `max(d - n, 0)`, and the channel stands at its target exactly when `n >= d` |
| Colors.MatchedCountsReached | software/rgb.c:183-198 | the `done` count of the fade loop is at most the number of channels, and equals it exactly when every channel is at its target |
| Colors.TargetFromCode | software/rgb.c:205-207 | target channel `i` is 0xFF (dark) when bit `i` of the code is set and 0x00 (lit) otherwise; the target is white exactly when the low three bits are 0, and dark exactly when they are all 1 |
| Colors.RandomCode | software/rgb.c:202 | `rand() % 6 + 1` lies in 1..6, so the drawn target is never white (all 0x00) and never dark (all 0xFF) |
| Colors.ColorPwms | software/rgb.c:139-143 | `setColor` gives channel `i` 0x00 (lit) when bit `i` is set and 0xFF (dark) otherwise, the bitwise complement of the random target for the same code |
| Colors.ManualColors | software/rgb.c:139-143 | for every code 1..7 reachable by hand, `setColor` never shows all 0xFF (dark), and shows all 0x00 (white) exactly at code 7; as a random target, code 7 would be dark |
| Colors.NextColor | software/rgb.c:244-248 | the next colour code lies in 1..7 and, from 1..7, is `color mod 7 + 1` (7 wraps to 1, 0 is skipped) |
| Colors.ColorOrbit | software/rgb.c:244-248 | from a code in 1..7, `n` presses give `(color - 1 + n) mod 7 + 1`: the codes are visited in order with period 7 |
| Controller.NextSpeed | software/rgb.c:227-230 | the new speed is at most 0x80; from a valid speed it is valid and its level is the old level plus one, mod 3 |
| Controller.BlinkCount | software/rgb.c:233 | the blink count `(speed >> 6) + 1` is between 1 and 4, and for a valid speed it is the speed's ordinal plus one |
| Controller.SpeedOrbit | software/rgb.c:226-230 | from a valid speed, `n` presses keep the speed valid and give level `(level + n) mod 3`: fast, medium, slow, fast |
| Controller.Toggle | software/rgb.c:216 | toggling is its own inverse; from mode 0 or 1 it gives the other one |
| Controller.Reset | software/rgb.c:149-170 | the power-on state satisfies the invariant, has every channel and target at 0xFF, mode 0, colour 1, speed 0, counter 0, and holds the first button sample |
| Controller.ColorStepFades | software/rgb.c:185-195 | in a colour step every channel off its target moves one unit toward it and gets one unit closer; a channel at its target is untouched |
| Controller.ColorStepRetargets | software/rgb.c:198-208 | a colour step changes the targets only when all three channels stood at their targets, then leaves the channels in place and sets targets from `RandomCode`, never white and never dark |
| Controller.IterateKeepsInv | software/rgb.c:176-252 | every main-loop pass keeps mode in {0,1}, colour in 1..7, speed in {0,0x40,0x80}, targets in {0,255} and the stored sample inside the button mask; it blinks at most 3 times, and when it blinks it shows the new speed's ordinal |
| Controller.TickKeepsInv | software/rgb.c:82-85 | an interrupt keeps the invariant and advances the counter by one mod 256 |
| Controller.FirstIterationPicksTarget | software/rgb.c:164-170 | the first pass after power-on finds every channel at its target, keeps them at 0xFF, reports no button edge, and draws a target that is neither white nor dark |
| Controller.HeldButtonsIgnored | software/rgb.c:212-251 | while the button sample does not change, a pass changes neither mode, colour nor speed, reports no edge, does not blink, and in single-colour mode leaves the channels and targets alone |
| Controller.FadeWhileCycling | software/rgb.c:181-209 | in mode 0, while some channel is off target and no button changes, a pass fades every channel one step and keeps the targets |
| Controller.EnterSingleColorMode | software/rgb.c:215-220 | releasing the mode button in mode 0 with colour 1 enters mode 1 and shows colour 1 at once, without blinking or changing the speed |
| Controller.SingleColorWraps | software/rgb.c:243-249 | releasing the change button in mode 1 at colour 7 gives colour 1, shown at once, with the targets untouched |
| Controller.SpeedChangeBlinks | software/rgb.c:224-238 | from the fastest speed, two releases of the change button give medium and then slow, with 2 and then 3 blinks; the pass in between, with the button held, blinks not at all |
| Rgb.Device.constructor | software/rgb.c:147-170 | power-on: the state equals `Reset(pind)`, 0xFF on every channel and target, buttons sampled |
| Rgb.Device.TimerOverflow | software/rgb.c:80-100 | the counter advances (and nothing else changes) and the returned port byte is `PortOut` of the levels and the new counter |
| Rgb.Device.InitButtons | software/rgb.c:105-111 | the stored previous sample is the current button sample |
| Rgb.Device.PollButtons | software/rgb.c:115-123 | the new state is `Poll` of the old one: sample stored, edges from `Detect`, nothing else changed |
| Rgb.Device.SetColor | software/rgb.c:139-143 | the levels become `ColorPwms(c)` |
| Rgb.Device.FadeStep | software/rgb.c:183-195 | the levels become the one-step fade toward the targets and `done` is the number of channels that were already there |
| Rgb.Device.PickTarget | software/rgb.c:200-207 | the targets become `TargetFromCode(RandomCode(rnd))` |
| Rgb.Device.CycleColors | software/rgb.c:181-209 | the new state is `ColorStep` of the old one: fade, and a new target only when `done` reached 3 |
| Rgb.Device.BlinkSpeed | software/rgb.c:233-238 | the blink loop runs `BlinkCount(speed)` times, the speed's ordinal plus one |
| Rgb.Device.OnModeButton | software/rgb.c:214-221 | the new state is `OnModeRelease` of the old one |
| Rgb.Device.OnChangeButton | software/rgb.c:223-251 | the new state is `OnChangeRelease` of the old one, and the blinks are those of the new speed (none in mode 1) |
| Rgb.Device.LoopIteration | software/rgb.c:176-252 | a pass of the main loop yields `Iterate` of the old state and `IterationBlinks` blinks, and keeps the invariant with at most 3 blinks |
| RgbLegacy.Device.constructor | rgb.c:115-135 | power-on with the header's initial globals (`software/rgb.h:20-22`): the state equals `Reset(pind)` and `out` is 0 |
| RgbLegacy.Device.TimerOverflow | rgb.c:46-68 | the counter advances (and nothing else changes) and the static `out` holds `PortOut` of the levels and the new counter |
| RgbLegacy.Device.InitButtons | rgb.c:73-79 | the stored previous sample is the current button sample |
| RgbLegacy.Device.PollButtons | rgb.c:83-91 | the new state is `Poll` of the old one |
| RgbLegacy.Device.SetColor | rgb.c:107-111 | the levels become `ColorPwms` of the global `color` |
| RgbLegacy.Device.FadeStep | rgb.c:148-160 | the levels become the one-step fade and `done` counts the channels already at target |
| RgbLegacy.Device.TargetChannel | rgb.c:171 | the channel written from the code reused in `done` is the one `TargetFromCode` gives |
| RgbLegacy.Device.CycleColors | rgb.c:146-174 | the new state is `ColorStep` of the old one, with `done` reused for the random code |
| RgbLegacy.Device.OnModeButton | rgb.c:179-186 | the new state is `OnModeRelease` of the old one |
| RgbLegacy.Device.OnChangeButton | rgb.c:188-216 | the new state is `OnChangeRelease` of the old one and the blink loop on `temp` runs `ChangeBlinks` times |
| RgbLegacy.Device.LoopIteration | rgb.c:141-217 | a pass of the main loop yields `Iterate` of the old state and `IterationBlinks` blinks, keeps the invariant, and leaves `out` alone |

## Left out

- `delay` and `nop()` take time only. The delay at the head of every pass
  is not modelled, so the speed has no effect on the model beyond its
  value and the blink count.
- Register set-up is peripheral configuration with no logic: `DDRB`,
  `TCCR0A`/`TCCR0B`, `TIMSK`, `DDRD`/`PORTD`, and `TCNT0 = 255` at the end
  of the interrupt. `cli()` and `sei()` are left out for the same reason.
- The blink loop's writes to `PORTB` are not modelled. Only the number of
  passes of the blink loop is modelled, as the `blinks` result.
- The interrupt preempting the main loop is not modelled. The interrupt is
  a separate operation, `TimerOverflow`. No claim is made about
  interleavings inside a main-loop pass.
- `rand()` is a parameter `rnd`, and its generator and seeding are not
  modelled.
- The port D input register `PIND` is a parameter `pind` of the operations
  that read it.
- Rgb.Device.FadeStep, RgbLegacy.Device.FadeStep: the `else if (<) / else if (>)`
  step is written as a call to `Colors.Approach`, which has those same
  branches, applied to the array element.
- Rgb.Device.TimerOverflow, RgbLegacy.Device.TimerOverflow: the
  `if (pwms[i] <= count) out |= _BV(i)` step is written as an OR with
  `Pwm.PinBit`, which gives `_BV(i)` under the same condition and 0
  otherwise.
- The channel loop counters (`i`, and in `rgb.c` the shared `temp`) run
  over 0..3 as integers. With three channels a byte counter never wraps.
  The blink loop of `rgb.c` keeps its byte `temp`.
- Rgb.Device.PollButtons, RgbLegacy.Device.PollButtons: these state the
  new state as `Poll` of the old one. Disjointness and the no-edge case
  are proved about `Poll` in `Controller.PollReportsEdges` and
  `Buttons.Detect`, not repeated in the methods' own contracts.
