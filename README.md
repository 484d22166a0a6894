# Pulse meter — a Dafny model

A model of the firmware of a photoplethysmogram pulse meter on an ATmega164A.
A timer interrupt runs every 2 ms. Each time it samples the sensor voltage,
tracks the waveform's peak `P` and trough `T`, and confirms a heartbeat when
the signal rises above an adaptive threshold `thresh`. A beat only counts if
more than 250 ms and more than `(IBI/5)*3` ms have passed since the last
one, where `IBI` is the last inter-beat interval and the division truncates
(so the second bound can lie slightly below 3/5 of `IBI`).

The interrupt also does the following:

- It keeps the last ten intervals in `rate[]`, oldest first, and sets `BPM`
  to 60000 over their mean.
- It throws away the very first beat and seeds all ten slots with the
  second beat's interval.
- When the pulse falls below the threshold, it re-tunes the threshold to
  half the amplitude.
- After more than 2.5 s without a beat, it re-seeds itself.

The main loop splits `BPM` into three decimal digits. Each pass shows one
digit on one of three multiplexed seven-segment displays.

Files:

- `pulse.dfy`, module `Pulse`: the interrupt's state as a value (`State`)
  and one tick as a function (`Step`). It also holds the reachable-state
  invariant `Inv` and the lemmas about a tick and about runs of ticks (`Run`).
- `detector.dfy`, module `Detector`: class `PulseDetector`. Its fields are
  the interrupt's globals, and `rate` is an `array<int>` of length 10 that is
  filled and shifted in place. Its method `Tick(signal)` does what the
  interrupt does, block by block, with the early return of the first-beat
  discard. It is proved to leave exactly `Step(old state, signal)`.
- `display.dfy`, module `Display`: the digit split, `displayPulse` and one
  pass of the main loop.

Modelling choices:

- Voltages are exact `real`s. The seeds 2.5, 2.55 and 2.6 and `amp/2 + T`
  are then exact.
- `sampleCounter` and `lastBeatTime` are `nat`s. All other integers are
  unbounded `int`s.
- `Inv` proves the values stay small: `N` is even and at most 2502, every
  `IBI` is in [252, 2502], and the running total is at most 25020, below
  2^15. So the 16-bit `int` of the compiler never overflows.
- C's `/` on the positive operands of the interrupt agrees with Dafny's
  `/`. The display code can see any `int`, so it uses C's truncating `/`
  and `%` and the conversion to `unsigned char` (modulo 256), written out.
- `Pulse`, `firstBeat` and `secondBeat` are `bool`s. The code only ever
  stores 0 or 1 in them.
- The indicator pin `LED1` is the field `led`.
- Globals without an initialiser start at zero, as C zero-initialises them:
  `BPM`, `rate[]` and `Signal`.
- The falling edge computes `amp = P - T` from the trough as already
  tracked on the same tick. The trough-tracking block runs first in the same
  interrupt, so `FallingEdgeRetunes` states `amp` in terms of
  `TrackedTrough`.
- The return after the first beat skips the falling-edge and dropout
  blocks. A discarded first beat therefore never triggers the dropout reset
  on that tick, even when `N > 2500`; `DropoutResets` excludes that case in
  its precondition. On every other tick, a beat confirmed on the same tick
  is still followed by the reset.
- `dig1` is always driven on the first display, even when it is 0, so below
  100 BPM that display shows the pattern for 0 (there is no leading-zero
  blanking).

## Model

| member | source | states |
|---|---|---|
| `Pulse.Initial` | Pulsemeter/main.c:32-46 | The power-up state satisfies the reachable-state invariant, waits for a first beat with `Pulse` clear, and has `BPM == 0`. |
| `Pulse.SumBounds` | Pulsemeter/main.c:94-102 | A sum of n intervals each in [lo, hi] lies in [n*lo, n*hi]. |
| `Pulse.SumConstant` | Pulsemeter/main.c:80-82 | k slots all set to x sum to k*x. |
| `Pulse.AverageInRange` | Pulsemeter/main.c:94-103 | For ten real intervals, the running total is in [2520, 25020], below 2^15. The divisor `runningTotal/10` is in [252, 2502], so it is never zero. |
| `Pulse.BpmInRange` | Pulsemeter/main.c:103-104 | For ten real intervals, `60000/(sum/10)` is in [23, 238]. |
| `Pulse.SteadyRate` | Pulsemeter/main.c:94-104 | Ten equal intervals x give a mean of x and `BPM == 60000/x`. |
| `Pulse.RecordAllKeepsLast` | Pulsemeter/main.c:94-101 | After k shifts the history holds its last 10-k old entries followed by the k new intervals. After ten or more shifts it holds exactly the last ten intervals, whatever it held before. |
| `Pulse.MixedHistoryRate` | Pulsemeter/main.c:94-104 | Nine intervals of 800 ms and one of 1200 ms give a mean of 840 ms and 71 BPM. |
| `Pulse.HistoryInRange` | Pulsemeter/main.c:71-101 | On a beat that is not discarded, `N` is in [252, 2502]. The history to be averaged has ten slots, each holding a real interval. |
| `Pulse.Step` | Pulsemeter/main.c:51-126 | One whole interrupt: `Track`, then the beat gate (`Confirm`, ending the tick at once on a discarded first beat, otherwise `Record`), then `Release` and `Supervise`. It has no `ensures` of its own; `StepPreservesInv`, `PulseLatch`, `BeatConfirmed`, `BeatRecorded`, `FallingEdgeRetunes`, `DropoutResets` and the other tick lemmas below specify it. |
| `Pulse.Track` | Pulsemeter/main.c:58-69 | Tracking keeps `thresh`, `Pulse` and `IBI` (so the beat gate may read them from before the tick), never lowers `P` and never raises `T`. `EnvelopeTracking` states when and to what they move. |
| `Pulse.Confirms` | Pulsemeter/main.c:71-72 | The beat gate: `N > 250`, sample above `thresh`, `Pulse` clear and `N > (IBI/5)*3`. A predicate without `ensures`; `PulseLatch` proves it holds exactly when `Pulse` rises, and `BeatConfirmed` what follows from it. |
| `Pulse.Confirm` | Pulsemeter/main.c:73-83 | The beat block: no `ensures` of its own; `BeatConfirmed`, `SecondBeatSeeds` and `FirstBeatDiscarded` specify it inside `Step`. |
| `Pulse.Record` | Pulsemeter/main.c:94-104 | The averaging block leaves ten real intervals with the new `IBI` last and `BPM` in [23, 238]; `BeatRecorded` gives the exact history and `BPM`. |
| `Pulse.Release` | Pulsemeter/main.c:108-115 | The falling-edge block: no `ensures` of its own; `FallingEdgeRetunes` and `PulseLatch` specify it inside `Step`. |
| `Pulse.Supervise` | Pulsemeter/main.c:117-124 | The dropout block: no `ensures` of its own; `DropoutResets` and `QuietTickKeepsPhase` specify it inside `Step`. |
| `Pulse.StepPreservesInv` | Pulsemeter/main.c:51-126 | Every tick preserves the invariant. The invariant covers: at most 2.5 s since the last beat, even counters, `IBI` in [252, 2502], never both start-up flags, real intervals in the history once both flags are clear, `BPM` 0 or in [23, 238], `T <= thresh`, `T <= P`, `thresh <= P` except in the two seeded envelopes (`P == 2.5, thresh == 2.55` at power-up and `P == 2.55, thresh == 2.6` after a dropout), and the LED equal to `Pulse`. |
| `Pulse.BeatPhaseSettled` | Pulsemeter/main.c:59-105 | Up to the end of the beat gate, a tick that does not end early keeps the non-clock part of the invariant. It leaves the threshold alone and restarts the beat clock exactly on a beat. |
| `Pulse.StepAdvancesClock` | Pulsemeter/main.c:58-59 | Every tick advances `sampleCounter` by 2 and stores the sample in `Signal`. |
| `Pulse.EnvelopeTracking` | Pulsemeter/main.c:61-69 | Outside the falling-edge and dropout blocks, `P` only rises and only to a sample above `thresh`. `T` only falls, only to a sample below `thresh`, and only when `N > (IBI/5)*3`. The threshold and the amplitude stay. |
| `Pulse.PulseLatch` | Pulsemeter/main.c:71-110 | After a tick, `Pulse` is set iff a beat was confirmed, or it was already set and no falling edge occurred. A beat is confirmed exactly when `Pulse` rises, and a falling edge exactly when it drops. The LED follows `Pulse`. |
| `Pulse.BeatConfirmed` | Pulsemeter/main.c:71-76 | On a confirmed beat (`N > 250`, sample above `thresh`, `Pulse` clear, `N > (IBI/5)*3`), `Pulse` is set, `IBI == N` within [252, 2502], and `lastBeatTime == sampleCounter`. |
| `Pulse.NoBeatKeepsRate` | Pulsemeter/main.c:71-106 | A tick without a beat leaves `IBI`, `rate[]` and `BPM` unchanged, whatever the dropout block does. |
| `Pulse.FirstBeatDiscarded` | Pulsemeter/main.c:85-90 | On the first beat, `firstBeat` clears and `secondBeat` sets. `rate[]`, `BPM`, `thresh` and `amp` are unchanged, and `P` and `T` are as tracked. Neither the falling-edge nor the dropout block runs. |
| `Pulse.BeatRecorded` | Pulsemeter/main.c:94-104 | After averaging, `rate[i]` is the (seeded) old `rate[i+1]` for i in 0..8, `rate[9] == IBI == N`, and `BPM == 60000/(sum(rate)/10)` in [23, 238]. |
| `Pulse.SteadyBeatShifts` | Pulsemeter/main.c:96-101 | In the steady phase, a beat drops the oldest interval and appends `N`. |
| `Pulse.SecondBeatSeeds` | Pulsemeter/main.c:78-83 | The second beat sets all ten slots to its interval. `BPM == 60000/IBI` at once, and `secondBeat` clears. |
| `Pulse.FallingEdgeRetunes` | Pulsemeter/main.c:108-115 | On a sample below `thresh` while `Pulse` is set, `Pulse` and the LED clear, and `amp == P - T` is at least 0. Unless the dropout block follows, `thresh == amp/2 + T` lies between `T` and `P`, and `P == T == thresh`. |
| `Pulse.DropoutResets` | Pulsemeter/main.c:117-124 | If `N > 2500` (taken at the start of the tick) and the tick is not a discarded first beat, then `thresh == 2.6`, `P == T == 2.55`, `lastBeatTime == sampleCounter`, `firstBeat` is set and `secondBeat` is clear. This holds even if a beat was confirmed on the same tick. |
| `Pulse.QuietTickKeepsPhase` | Pulsemeter/main.c:71-124 | A tick with no beat and `N <= 2500` changes neither start-up flag nor `lastBeatTime`. |
| `Pulse.Run` | Pulsemeter/main.c:51-126 | Any sequence of ticks from a state satisfying the invariant ends in a state satisfying the invariant, with the counter advanced by 2 per tick. |
| `Pulse.ReachableBounds` | Pulsemeter/main.c:39-46 | Every state reached from power-up has `sampleCounter - lastBeatTime <= 2500`, `IBI` in [252, 2502], and `BPM` either 0 or in [23, 238]. |
| `Pulse.BeatsAlternateWithReleases` | Pulsemeter/main.c:71-115 | Along any run, beats and falling edges alternate: beats + (`Pulse` set at the start) == falling edges + (`Pulse` set at the end). |
| `Pulse.AtMostOneBeatPerCrossing` | Pulsemeter/main.c:72-73 | Without a falling edge, a run confirms at most one beat, and none while `Pulse` is set. |
| `Detector.PulseDetector.constructor` | Pulsemeter/main.c:32-46 | The globals start as the seeded power-up state. |
| `Detector.PulseDetector.Tick` | Pulsemeter/main.c:51-126 | One interrupt on the fields and the array in place, including the early return, leaves exactly `Step(old state, signal)` and keeps the invariant. |
| `Detector.PulseDetector.StartTick` | Pulsemeter/main.c:58-69 | Storing the sample, advancing the counter, measuring `N` and tracking the trough and the peak give the tracked state. |
| `Detector.PulseDetector.MarkBeat` | Pulsemeter/main.c:73-83 | The beat block sets `Pulse`, the LED, `IBI` and `lastBeatTime`, and on the second beat seeds all of `rate[]`. |
| `Detector.PulseDetector.SeedHistory` | Pulsemeter/main.c:80-82 | The `for` loop sets all ten slots to `IBI`. |
| `Detector.PulseDetector.RecordInterval` | Pulsemeter/main.c:94-104 | The in-place shift loop and the running total leave `rate[..] == old rate[1..] + [IBI]` and `BPM == 60000/(sum/10)`, with a positive divisor. |
| `Detector.PulseDetector.EndOfPulse` | Pulsemeter/main.c:108-115 | The falling-edge block on the fields is `Release`. |
| `Detector.PulseDetector.DropoutCheck` | Pulsemeter/main.c:117-124 | The dropout block on the fields is `Supervise`. |
| `Display.DisplayPulse` | Pulsemeter/main.c:129-140 | The if-chain from digit to segment pattern: no `ensures` of its own; `DisplayPulseIsLookup` and `DigitsDistinguishable` specify it. |
| `Display.DisplayPulseIsLookup` | Pulsemeter/main.c:129-140 | `displayPulse(d)` gives the digit-table pattern for 0..8, and `NINE` for every other value. |
| `Display.DigitsDistinguishable` | Pulsemeter/defs.h:24-33 | Distinct decimal digits get distinct segment patterns. |
| `Display.SplitDigits` | Pulsemeter/main.c:158-165 | The two-branch digit split with C division and `unsigned char` stores: no `ensures` of its own; `SplitDigitsDecimal` and `DetectorBpmDisplayed` specify it. |
| `Display.SplitDigitsDecimal` | Pulsemeter/main.c:158-165 | For 0 <= BPM <= 999, each digit is in 0..9 and `100*dig1 + 10*dig2 + dig3 == BPM`. `dig2 == (BPM%100)/10` on both branches. |
| `Display.DetectorBpmDisplayed` | Pulsemeter/main.c:158-165 | Every `BPM` the detector can hold is shown exactly, with a hundreds digit of at most 2. |
| `Display.Refresh` | Pulsemeter/main.c:170-185 | For a counter in 0..3, one pass writes exactly one segment pattern and then one selector code, for position `count mod 3` and its digit, and the counter becomes `count mod 3 + 1`. Any other counter writes nothing. |
| `Display.MultiplexCycle` | Pulsemeter/main.c:170-185 | The counter stays in 1..3. Successive passes select SEG1, SEG2, SEG3 in turn, so any three passes in a row light all three displays. |

## Left out

- `read_voltage` (ADC channel select, busy-wait, `ADCW * 0.005` scaling): hardware I/O. `Tick` takes the sample as a parameter.
- Interrupt enabling and disabling (`cli`/`sei`) and the `volatile` sharing of `BPM` with the main loop: concurrency. Each tick is modelled as atomic.
- Port writes: `LED1` is the field `led`, and the segment and selector ports are the `PortWrite` values `Refresh` returns.
- `wdogtrig()`, `Init_initController` and the endless `while(TRUE)`: only one pass of the loop is modelled. `funct.h` is not part of this model.
- IEEE single-precision rounding of `P`, `T`, `thresh` and `amp`: exact reals are used instead, and no bit-exact float behaviour is claimed.
- Wraparound of the 32-bit `sampleCounter` after about 49 days, and truncation of `N` to a 16-bit `int`: counters are unbounded. The invariant keeps `N` at or below 2502.
- The defs.h macros the logic does not use: `CR`, `LF`, `SW1`, `TESTP`, `SW_VERSION`, `ADMUX_NOCHANNEL`.
