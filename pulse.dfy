/**
 * The pulse detector behind the timer interrupt of the pulse meter, as a
 * specification on values: the state the interrupt keeps between ticks, one
 * 2 ms tick as a function of that state and the new sample, the invariant
 * every reachable state satisfies, and what one tick (or a run of ticks)
 * does to the envelope, the beat flags, the rate history and BPM.
 *
 * Voltages are exact reals and counters are unbounded integers; the
 * invariant shows that every integer stays far inside the widths the
 * controller uses (16-bit `int`, 32-bit `unsigned long`).
 */
module Pulse {

  // ---------------------------------------------------------------- constants

  /** Period of the sampling timer, in ms. */
  const TickMs := 2
  /** A beat is never confirmed sooner than this after the previous one (ms). */
  const MinBeatGapMs := 250
  /** Without a beat for longer than this the detector re-seeds itself (ms). */
  const DropoutMs := 2500
  /** Number of inter-beat intervals the rate history keeps. */
  const Slots := 10
  /** One minute in ms: BPM is this divided by the mean interval. */
  const MsPerMinute := 60000

  /** Seeds of the interval and of the envelope at power-up. */
  const SeedIbi := 600
  const SeedEnvelope: real := 2.5
  const SeedThresh: real := 2.55
  /** Values the dropout reset puts back. */
  const ResetEnvelope: real := 2.55
  const ResetThresh: real := 2.6

  /** Smallest and largest interval a confirmed beat can measure: the first
      even value above MinBeatGapMs, and one tick past DropoutMs. */
  const MinIbi := 252
  const MaxIbi := 2502
  /** The matching rates: 60000 / MaxIbi and 60000 / MinIbi. */
  const MinBpm := 23
  const MaxBpm := 238

  // ---------------------------------------------------------------- state

  /** Everything the interrupt handler keeps between two ticks. `Pulse`,
      `firstBeat` and `secondBeat` are the source's 0/1 flags; `led` is the
      indicator output the handler drives on each edge. */
  datatype State = State(
    Signal: real,
    sampleCounter: nat,
    lastBeatTime: nat,
    IBI: int,
    Pulse: bool,
    led: bool,
    P: real,
    T: real,
    thresh: real,
    amp: real,
    firstBeat: bool,
    secondBeat: bool,
    rate: seq<int>,
    BPM: int)

  /** The power-up state: seeded envelope, waiting for the first beat,
      history and BPM still zero. */
  function Initial(): (s: State)
    ensures Inv(s)
    ensures s.firstBeat && !s.secondBeat && !s.Pulse && s.BPM == 0
  {
    State(0.0, 0, 0, SeedIbi, false, false, SeedEnvelope, SeedEnvelope, SeedThresh, 0.0,
          true, false, seq(Slots, _ => 0), 0)
  }

  /** Every interval in `h` is one a confirmed beat can measure. */
  predicate InRange(h: seq<int>) {
    forall i :: 0 <= i < |h| ==> MinIbi <= h[i] <= MaxIbi
  }

  /** The invariant of every state the detector can reach from Initial(). */
  predicate Inv(s: State) {
    && s.lastBeatTime <= s.sampleCounter <= s.lastBeatTime + DropoutMs
    && s.sampleCounter % TickMs == 0
    && s.lastBeatTime % TickMs == 0
    && Settled(s)
  }

  /** The part of the invariant that does not concern the clock. */
  predicate Settled(s: State) {
    && |s.rate| == Slots
    && MinIbi <= s.IBI <= MaxIbi
    && !(s.firstBeat && s.secondBeat)
    // once both start-up flags are clear, the history holds real intervals
    && (!s.firstBeat && !s.secondBeat ==> InRange(s.rate))
    && (s.BPM == 0 || MinBpm <= s.BPM <= MaxBpm)
    && s.T <= s.thresh
    && s.T <= s.P
    && EnvelopeOrdered(s)
    && s.led == s.Pulse
  }

  /** The threshold lies at or below the peak, except in the two seeded
      envelopes (power-up and dropout reset), where the peak starts just
      below the threshold until a sample above it raises the peak. */
  predicate EnvelopeOrdered(s: State) {
    || s.thresh <= s.P
    || (s.P == SeedEnvelope && s.thresh == SeedThresh)
    || (s.P == ResetEnvelope && s.thresh == ResetThresh)
  }

  // ---------------------------------------------------------------- averaging

  /** Sum of a sequence, taken from the front as the averaging loop adds. */
  function Sum(h: seq<int>): int {
    if h == [] then 0 else Sum(h[..|h| - 1]) + h[|h| - 1]
  }

  /** A history holding `x` in every slot. */
  function Uniform(x: int): seq<int> {
    seq(Slots, _ => x)
  }

  /** The history after a new interval: oldest entry dropped, `ibi` appended. */
  function Shift(h: seq<int>, ibi: int): seq<int>
    requires |h| > 0
  {
    h[1..] + [ibi]
  }

  /** Mean interval of the history, in integer ms. */
  function Average(h: seq<int>): int {
    Sum(h) / Slots
  }

  /** Beats per minute for a history whose mean interval is positive. */
  function BpmOf(h: seq<int>): int
    requires Average(h) > 0
  {
    MsPerMinute / Average(h)
  }

  lemma {:induction false} SumBounds(h: seq<int>, lo: int, hi: int)
    requires forall i :: 0 <= i < |h| ==> lo <= h[i] <= hi
    ensures |h| * lo <= Sum(h) <= |h| * hi
  {
    if h != [] {
      var init := h[..|h| - 1];
      assert forall i :: 0 <= i < |init| ==> init[i] == h[i];
      SumBounds(init, lo, hi);
    }
  }

  lemma {:induction false} SumConstant(k: nat, x: int)
    ensures Sum(seq(k, _ => x)) == k * x
  {
    if k > 0 {
      assert seq(k, _ => x)[..k - 1] == seq(k - 1, _ => x);
      SumConstant(k - 1, x);
    }
  }

  /** A full history of real intervals has a mean that is itself a real
      interval, so the divisor of the rate is never zero; the running total
      stays below 2^15, inside a 16-bit `int`. */
  lemma AverageInRange(h: seq<int>)
    requires |h| == Slots && InRange(h)
    ensures Slots * MinIbi <= Sum(h) <= Slots * MaxIbi < 0x8000
    ensures MinIbi <= Average(h) <= MaxIbi
  {
    SumBounds(h, MinIbi, MaxIbi);
  }

  lemma BpmInRange(h: seq<int>)
    requires |h| == Slots && InRange(h)
    ensures Average(h) > 0
    ensures MinBpm <= BpmOf(h) <= MaxBpm
  {
    AverageInRange(h);
  }

  /** Ten equal intervals give exactly 60000 / x. */
  lemma SteadyRate(x: int)
    requires x > 0
    ensures Average(Uniform(x)) == x
    ensures BpmOf(Uniform(x)) == MsPerMinute / x
  {
    SumConstant(Slots, x);
  }

  /** The history after a sequence of recorded intervals. */
  function RecordAll(h: seq<int>, ibis: seq<int>): seq<int>
    requires |h| > 0
    decreases |ibis|
  {
    if ibis == [] then h else RecordAll(Shift(h, ibis[0]), ibis[1..])
  }

  /** However the history started, after ten or more recorded intervals it
      holds exactly the last ten, oldest first. */
  lemma {:induction false} RecordAllKeepsLast(h: seq<int>, ibis: seq<int>)
    requires |h| == Slots
    ensures |RecordAll(h, ibis)| == Slots
    ensures |ibis| >= Slots ==> RecordAll(h, ibis) == ibis[|ibis| - Slots..]
    ensures |ibis| < Slots ==> RecordAll(h, ibis) == h[|ibis|..] + ibis
    decreases |ibis|
  {
    if ibis != [] {
      var h' := Shift(h, ibis[0]);
      RecordAllKeepsLast(h', ibis[1..]);
      if |ibis| <= Slots {
        ShiftThenAppend(h, ibis, |ibis|);
      } else {
        assert ibis[1..][|ibis| - 1 - Slots..] == ibis[|ibis| - Slots..];
      }
    }
  }

  /** One step of RecordAllKeepsLast: the suffix of the shifted history
      followed by the remaining intervals is the suffix of the old history
      followed by all of them. */
  lemma ShiftThenAppend(h: seq<int>, ibis: seq<int>, k: int)
    requires 1 <= k <= |h| && k <= |ibis|
    ensures Shift(h, ibis[0])[k - 1..] + ibis[1..] == h[k..] + ibis
  {
    assert Shift(h, ibis[0])[k - 1..] == h[k..] + [ibis[0]];
    assert [ibis[0]] + ibis[1..] == ibis;
  }

  /** Nine intervals of 800 ms and one of 1200 ms: mean 840 ms, 71 BPM. */
  lemma MixedHistoryRate(h: seq<int>)
    requires |h| == Slots
    ensures var r := RecordAll(h, [800, 800, 800, 800, 800, 800, 800, 800, 800, 1200]);
            Average(r) == 840 && BpmOf(r) == 71
  {
    var ibis := [800, 800, 800, 800, 800, 800, 800, 800, 800, 1200];
    RecordAllKeepsLast(h, ibis);
    assert RecordAll(h, ibis) == ibis;
    assert ibis[..9] == seq(9, _ => 800);
    SumConstant(9, 800);
    assert Sum(ibis) == Sum(ibis[..9]) + 1200 == 8400;
  }

  // ---------------------------------------------------------------- one tick

  /** N: the time since the last beat, taken once the counter has advanced. */
  function Elapsed(s: State): int {
    s.sampleCounter + TickMs - s.lastBeatTime
  }

  /** 3/5 of the last interval has passed (the dicrotic-notch guard). */
  predicate PastRefractory(s: State, n: int) {
    n > (s.IBI / 5) * 3
  }

  /** The trough after tracking: lowered to a sample below the threshold
      once the refractory part of the interval is over. */
  function TrackedTrough(s: State, signal: real): real {
    if signal < s.thresh && PastRefractory(s, Elapsed(s)) && signal < s.T then signal else s.T
  }

  /** The peak after tracking: raised to a sample above the threshold. */
  function TrackedPeak(s: State, signal: real): real {
    if signal > s.thresh && signal > s.P then signal else s.P
  }

  /** The beat gate. Tracking changes neither the threshold, nor `Pulse`,
      nor `IBI`, so the gate reads them from the state before the tick. */
  predicate Confirms(s: State, signal: real) {
    var n := Elapsed(s);
    n > MinBeatGapMs && signal > s.thresh && !s.Pulse && PastRefractory(s, n)
  }

  /** The very first beat after start-up or a dropout: its interval is thrown away. */
  predicate Discards(s: State, signal: real) {
    Confirms(s, signal) && s.firstBeat
  }

  /** The end of a pulse: the sample falls below the threshold while `Pulse` is set. */
  predicate Falls(s: State, signal: real) {
    s.Pulse && signal < s.thresh
  }

  /** The history a confirmed beat shifts: all ten slots set to the second
      beat's interval, the current history otherwise. */
  function Seeded(s: State, n: int): seq<int> {
    if s.secondBeat then Uniform(n) else s.rate
  }

  /** The history after a beat that is not discarded. */
  function History(s: State, n: int): seq<int>
    requires |s.rate| == Slots
  {
    Shift(Seeded(s, n), n)
  }

  /** The falling-edge block: clear `Pulse` and put the threshold, the peak
      and the trough at half the amplitude. */
  function Release(s: State): State {
    if s.Signal < s.thresh && s.Pulse then
      var amp := s.P - s.T;
      var th := amp / 2.0 + s.T;
      s.(led := false, Pulse := false, amp := amp, thresh := th, P := th, T := th)
    else
      s
  }

  /** The dropout block: re-seed the envelope and wait for a first beat again. */
  function Supervise(s: State, n: int): State {
    if n > DropoutMs then
      s.(thresh := ResetThresh, P := ResetEnvelope, T := ResetEnvelope,
         lastBeatTime := s.sampleCounter, firstBeat := true, secondBeat := false)
    else
      s
  }

  /** Under Inv, the history a non-discarded beat averages holds real intervals. */
  lemma HistoryInRange(s: State, signal: real)
    requires Inv(s) && Confirms(s, signal) && !s.firstBeat
    ensures MinIbi <= Elapsed(s) <= MaxIbi
    ensures |History(s, Elapsed(s))| == Slots && InRange(History(s, Elapsed(s)))
  {
    var n := Elapsed(s);
    assert n % 2 == 0;
    var h := History(s, n);
    forall i | 0 <= i < Slots
      ensures MinIbi <= h[i] <= MaxIbi
    {
      if i < Slots - 1 {
        assert h[i] == Seeded(s, n)[i + 1];
      }
    }
  }

  /** The start of a tick: the counter advances, the sample is kept and
      the envelope tracked. */
  function Track(s: State, signal: real): (t: State)
    ensures t.thresh == s.thresh && t.Pulse == s.Pulse && t.IBI == s.IBI
    ensures t.P >= s.P && t.T <= s.T
  {
    s.(Signal := signal, sampleCounter := s.sampleCounter + TickMs,
       T := TrackedTrough(s, signal), P := TrackedPeak(s, signal))
  }

  /** A confirmed beat: `Pulse` and the indicator on, the interval measured,
      the beat clock restarted, the history seeded if this is the second beat. */
  function Confirm(t: State, n: int): State {
    t.(Pulse := true, led := true, IBI := n, lastBeatTime := t.sampleCounter,
       secondBeat := false, rate := Seeded(t, n))
  }

  /** The averaging block: the new interval shifted into the history and
      BPM taken from the mean of the ten. */
  function Record(b: State): (r: State)
    requires |b.rate| == Slots && InRange(Shift(b.rate, b.IBI))
    ensures |r.rate| == Slots && InRange(r.rate) && r.rate[Slots - 1] == b.IBI
    ensures MinBpm <= r.BPM <= MaxBpm
  {
    var h := Shift(b.rate, b.IBI);
    BpmInRange(h);
    b.(rate := h, BPM := BpmOf(h))
  }

  /** The tick up to the end of the beat gate, on every tick that does not
      end early: tracking, then (for a confirmed beat) the measured interval
      and the shifted history. */
  function BeatPhase(s: State, signal: real): State
    requires Inv(s) && !Discards(s, signal)
  {
    var t := Track(s, signal);
    if Confirms(s, signal) then
      HistoryInRange(s, signal);
      Record(Confirm(t, Elapsed(s)))
    else
      t
  }

  /** One 2 ms tick: advance the counter, track the envelope, run the beat
      gate (discarding the first beat and ending the tick at once, seeding
      the history on the second, recording the interval otherwise), then the
      falling edge and the dropout reset. */
  function Step(s: State, signal: real): State
    requires Inv(s)
  {
    if Discards(s, signal) then
      Confirm(Track(s, signal), Elapsed(s)).(firstBeat := false, secondBeat := true)
    else
      Supervise(Release(BeatPhase(s, signal)), Elapsed(s))
  }

  // ---------------------------------------------------------------- properties of a tick

  lemma StepPreservesInv(s: State, signal: real)
    requires Inv(s)
    ensures Inv(Step(s, signal))
  {
    var n := Elapsed(s);
    assert n % 2 == 0;
    if Discards(s, signal) {
      assert Seeded(s, n) == s.rate;
    } else {
      BeatPhaseSettled(s, signal);
      var m := BeatPhase(s, signal);
      assert Settled(Release(m));
    }
  }

  /** Up to the end of the beat gate a tick keeps everything but the clock
      part of the invariant, and the beat clock restarts on a beat. */
  lemma BeatPhaseSettled(s: State, signal: real)
    requires Inv(s) && !Discards(s, signal)
    ensures var m := BeatPhase(s, signal);
      && Settled(m)
      && m.sampleCounter == s.sampleCounter + TickMs
      && m.Signal == signal && m.thresh == s.thresh
      && m.lastBeatTime == (if Confirms(s, signal) then m.sampleCounter else s.lastBeatTime)
  {
    var n := Elapsed(s);
    assert n % 2 == 0;
    if Confirms(s, signal) {
      HistoryInRange(s, signal);
      BpmInRange(History(s, n));
    }
  }

  /** Every tick advances the counter by one period and keeps the sample. */
  lemma StepAdvancesClock(s: State, signal: real)
    requires Inv(s)
    ensures Step(s, signal).sampleCounter == s.sampleCounter + TickMs
    ensures Step(s, signal).Signal == signal
  {
  }

  /** Outside the falling edge and the dropout reset (and always on the tick
      that discards the first beat), the peak only rises, to a sample above
      the threshold, and the trough only falls, to a sample below it once
      3/5 of the last interval has passed; the threshold stays. */
  lemma EnvelopeTracking(s: State, signal: real)
    requires Inv(s)
    requires Discards(s, signal) || (!Falls(s, signal) && Elapsed(s) <= DropoutMs)
    ensures var r := Step(s, signal);
      && r.thresh == s.thresh && r.amp == s.amp
      && r.P >= s.P && (r.P != s.P ==> r.P == signal && signal > s.thresh)
      && r.T <= s.T
      && (r.T != s.T ==> r.T == signal && signal < s.thresh && Elapsed(s) > (s.IBI / 5) * 3)
  {
  }

  /** `Pulse` is a latch: set by a confirmed beat, cleared by a falling edge,
      kept otherwise; the indicator follows it. A beat is confirmed exactly
      when `Pulse` rises. */
  lemma PulseLatch(s: State, signal: real)
    requires Inv(s)
    ensures var r := Step(s, signal);
      && r.Pulse == (Confirms(s, signal) || (s.Pulse && !Falls(s, signal)))
      && r.led == r.Pulse
      && (Confirms(s, signal) <==> !s.Pulse && r.Pulse)
      && (Falls(s, signal) <==> s.Pulse && !r.Pulse)
  {
  }

  /** A confirmed beat measures its interval and restarts the beat clock,
      whether or not the dropout reset follows on the same tick. */
  lemma BeatConfirmed(s: State, signal: real)
    requires Inv(s) && Confirms(s, signal)
    ensures var r := Step(s, signal);
      && r.Pulse && r.IBI == Elapsed(s) && MinIbi <= r.IBI <= MaxIbi
      && r.lastBeatTime == r.sampleCounter
  {
    assert Elapsed(s) % 2 == 0;
  }

  /** A tick without a beat leaves the interval, the history and BPM alone. */
  lemma NoBeatKeepsRate(s: State, signal: real)
    requires Inv(s) && !Confirms(s, signal)
    ensures var r := Step(s, signal);
      r.IBI == s.IBI && r.rate == s.rate && r.BPM == s.BPM
  {
  }

  /** The first beat only moves the start-up flags on: history, BPM and the
      envelope as tracked are kept, and the tick ends before the falling-edge
      and dropout blocks, even past the dropout timeout. */
  lemma FirstBeatDiscarded(s: State, signal: real)
    requires Inv(s) && Discards(s, signal)
    ensures var r := Step(s, signal);
      && !r.firstBeat && r.secondBeat
      && r.rate == s.rate && r.BPM == s.BPM
      && r.Pulse && r.thresh == s.thresh && r.amp == s.amp
      && r.P == TrackedPeak(s, signal) && r.T == TrackedTrough(s, signal)
      && r.lastBeatTime == r.sampleCounter
  {
  }

  /** A beat that is not discarded shifts the history left by one, puts the
      new interval last and sets BPM to 60000 over the mean of the ten. */
  lemma BeatRecorded(s: State, signal: real)
    requires Inv(s) && Confirms(s, signal) && !s.firstBeat
    ensures var r := Step(s, signal);
      && |r.rate| == Slots
      && (forall i :: 0 <= i < Slots - 1 ==> r.rate[i] == Seeded(s, Elapsed(s))[i + 1])
      && r.rate[Slots - 1] == Elapsed(s) == r.IBI
      && Average(r.rate) > 0
      && r.BPM == MsPerMinute / (Sum(r.rate) / Slots)
      && MinBpm <= r.BPM <= MaxBpm
      && !r.secondBeat
  {
    HistoryInRange(s, signal);
    BpmInRange(History(s, Elapsed(s)));
  }

  /** In the steady state the history shifts by exactly one old entry. */
  lemma SteadyBeatShifts(s: State, signal: real)
    requires Inv(s) && Confirms(s, signal) && !s.firstBeat && !s.secondBeat
    ensures Step(s, signal).rate == Shift(s.rate, Elapsed(s))
  {
  }

  /** The second beat fills all ten slots with its own interval, so BPM is
      60000 over that interval straight away. */
  lemma SecondBeatSeeds(s: State, signal: real)
    requires Inv(s) && Confirms(s, signal) && s.secondBeat
    ensures var r := Step(s, signal);
      && r.rate == Uniform(Elapsed(s))
      && r.BPM == MsPerMinute / Elapsed(s)
      && !r.secondBeat
  {
    var n := Elapsed(s);
    HistoryInRange(s, signal);
    assert Shift(Uniform(n), n) == Uniform(n);
    SteadyRate(n);
  }

  /** A falling edge clears `Pulse`, takes the amplitude from the peak and
      the trough as tracked on this tick, and (unless the dropout reset
      follows) puts the threshold, the peak and the trough at half of it,
      which lies between the trough and the peak. */
  lemma FallingEdgeRetunes(s: State, signal: real)
    requires Inv(s) && Falls(s, signal)
    ensures var r := Step(s, signal);
      && !r.Pulse && !r.led
      && r.amp == s.P - TrackedTrough(s, signal) >= 0.0
      && (Elapsed(s) <= DropoutMs ==>
            && r.thresh == r.amp / 2.0 + TrackedTrough(s, signal)
            && r.P == r.thresh && r.T == r.thresh
            && TrackedTrough(s, signal) <= r.thresh <= s.P)
  {
  }

  /** After more than 2.5 s without a beat (N taken at the start of the
      tick), the envelope is re-seeded and the detector waits for a first
      beat again; this also follows a beat confirmed on the same tick,
      unless that beat is the discarded first one. */
  lemma DropoutResets(s: State, signal: real)
    requires Inv(s) && Elapsed(s) > DropoutMs && !Discards(s, signal)
    ensures var r := Step(s, signal);
      && r.thresh == ResetThresh && r.P == ResetEnvelope && r.T == ResetEnvelope
      && r.lastBeatTime == r.sampleCounter
      && r.firstBeat && !r.secondBeat
  {
  }

  /** Before the timeout, a tick without a beat never touches the start-up
      flags or the beat clock. */
  lemma QuietTickKeepsPhase(s: State, signal: real)
    requires Inv(s) && !Confirms(s, signal) && Elapsed(s) <= DropoutMs
    ensures var r := Step(s, signal);
      r.firstBeat == s.firstBeat && r.secondBeat == s.secondBeat && r.lastBeatTime == s.lastBeatTime
  {
  }

  // ---------------------------------------------------------------- runs of ticks

  /** The state after feeding `signals` one tick at a time. */
  function Run(s: State, signals: seq<real>): (r: State)
    requires Inv(s)
    ensures Inv(r)
    ensures r.sampleCounter == s.sampleCounter + TickMs * |signals|
    decreases |signals|
  {
    if signals == [] then s
    else
      StepPreservesInv(s, signals[0]);
      Run(Step(s, signals[0]), signals[1..])
  }

  /** Every state reached from power-up keeps at most 2.5 s since the last
      beat, a real interval in IBI and a BPM that is 0 or in [23, 238]. */
  lemma ReachableBounds(signals: seq<real>)
    ensures var r := Run(Initial(), signals);
      && Inv(r)
      && r.sampleCounter - r.lastBeatTime <= DropoutMs
      && MinIbi <= r.IBI <= MaxIbi
      && (r.BPM == 0 || MinBpm <= r.BPM <= MaxBpm)
  {
  }

  /** Number of beats confirmed along a run. */
  function Beats(s: State, signals: seq<real>): nat
    requires Inv(s)
    decreases |signals|
  {
    if signals == [] then 0
    else
      StepPreservesInv(s, signals[0]);
      (if Confirms(s, signals[0]) then 1 else 0) + Beats(Step(s, signals[0]), signals[1..])
  }

  /** Number of falling edges along a run. */
  function Releases(s: State, signals: seq<real>): nat
    requires Inv(s)
    decreases |signals|
  {
    if signals == [] then 0
    else
      StepPreservesInv(s, signals[0]);
      (if Falls(s, signals[0]) then 1 else 0) + Releases(Step(s, signals[0]), signals[1..])
  }

  /** Beats and falling edges alternate: between two confirmed beats there
      is always a falling edge, so each rising crossing gives at most one beat. */
  lemma {:induction false} BeatsAlternateWithReleases(s: State, signals: seq<real>)
    requires Inv(s)
    ensures Beats(s, signals) + (if s.Pulse then 1 else 0)
         == Releases(s, signals) + (if Run(s, signals).Pulse then 1 else 0)
    decreases |signals|
  {
    if signals != [] {
      StepPreservesInv(s, signals[0]);
      PulseLatch(s, signals[0]);
      BeatsAlternateWithReleases(Step(s, signals[0]), signals[1..]);
    }
  }

  /** In particular, without a falling edge there is at most one beat, and
      none at all while `Pulse` is set. */
  lemma AtMostOneBeatPerCrossing(s: State, signals: seq<real>)
    requires Inv(s) && Releases(s, signals) == 0
    ensures Beats(s, signals) <= (if s.Pulse then 0 else 1)
  {
    BeatsAlternateWithReleases(s, signals);
  }
}
