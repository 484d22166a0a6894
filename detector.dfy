/**
 * The timer interrupt of the pulse meter as an object: the globals it
 * updates become fields, the ten-slot rate history an array it fills and
 * shifts in place, and one interrupt the method Tick, proved to do exactly
 * what Pulse.Step specifies.
 */
module Detector {
  import opened Pulse

  class PulseDetector {
    var Signal: real
    var sampleCounter: nat
    var lastBeatTime: nat
    var IBI: int
    var Pulse: bool
    var led: bool
    var P: real
    var T: real
    var thresh: real
    var amp: real
    var firstBeat: bool
    var secondBeat: bool
    const rate: array<int>
    var BPM: int

    /** The detector's state as a value. */
    ghost function Abstract(): State
      reads this, rate
    {
      State(Signal, sampleCounter, lastBeatTime, IBI, Pulse, led, P, T, thresh, amp,
            firstBeat, secondBeat, rate[..], BPM)
    }

    ghost predicate Valid()
      reads this, rate
    {
      rate.Length == Slots && Inv(Abstract())
    }

    /** The globals as the program starts: seeds, zeroed history and BPM. */
    constructor ()
      ensures Valid() && fresh(rate)
      ensures Abstract() == Initial()
    {
      Signal := 0.0;
      sampleCounter, lastBeatTime := 0, 0;
      IBI := SeedIbi;
      Pulse, led := false, false;
      P, T, thresh, amp := SeedEnvelope, SeedEnvelope, SeedThresh, 0.0;
      firstBeat, secondBeat := true, false;
      rate := new int[Slots](_ => 0);
      BPM := 0;
      new;
      assert rate[..] == seq(Slots, _ => 0);
    }

    /** One timer interrupt, given the sample the ADC has just read. */
    method Tick(signal: real)
      requires Valid()
      modifies this, rate
      ensures Valid()
      ensures Abstract() == Step(old(Abstract()), signal)
    {
      ghost var s := Abstract();
      StepPreservesInv(s, signal);
      var n := StartTick(signal);
      if n > MinBeatGapMs {
        if Signal > thresh && !Pulse && n > (IBI / 5) * 3 {
          MarkBeat(n);
          if firstBeat {
            firstBeat := false;
            secondBeat := true;
            assert Discards(s, signal);
            return;
          }
          HistoryInRange(s, signal);
          RecordInterval();
        }
      }
      assert !Discards(s, signal) && Abstract() == BeatPhase(s, signal);
      EndOfPulse();
      DropoutCheck(n);
    }

    /** The start of the interrupt: keep the sample, advance the counter,
        measure N, and track the trough and the peak. */
    method StartTick(signal: real) returns (n: int)
      modifies this
      ensures n == Elapsed(old(Abstract()))
      ensures Abstract() == Track(old(Abstract()), signal)
    {
      Signal := signal;
      sampleCounter := sampleCounter + TickMs;
      n := sampleCounter - lastBeatTime;
      if Signal < thresh && n > (IBI / 5) * 3 {
        if Signal < T {
          T := Signal;
        }
      }
      if Signal > thresh && Signal > P {
        P := Signal;
      }
    }

    /** A confirmed beat: pulse and indicator on, the interval measured, the
        beat clock restarted, and on the second beat the history seeded. */
    method MarkBeat(n: int)
      requires rate.Length == Slots && n == sampleCounter - lastBeatTime
      modifies this, rate
      ensures Abstract() == Confirm(old(Abstract()), n)
    {
      Pulse := true;
      led := true;
      IBI := sampleCounter - lastBeatTime;
      lastBeatTime := sampleCounter;
      if secondBeat {
        secondBeat := false;
        SeedHistory();
      }
    }

    /** The second beat: every slot of the history set to the new interval. */
    method SeedHistory()
      requires rate.Length == Slots
      modifies rate
      ensures rate[..] == Uniform(IBI)
    {
      for i := 0 to Slots
        invariant forall k :: 0 <= k < i ==> rate[k] == IBI
      {
        rate[i] := IBI;
      }
      assert rate[..] == Uniform(IBI);
    }

    /** The averaging block: shift the history left in place, put IBI last,
        and set BPM from the mean of the ten intervals. */
    method RecordInterval()
      requires rate.Length == Slots && InRange(Shift(rate[..], IBI))
      modifies rate, this`BPM
      ensures rate[..] == Shift(old(rate[..]), IBI)
      ensures Average(rate[..]) > 0 && BPM == BpmOf(rate[..])
    {
      ghost var before := rate[..];
      var runningTotal := 0;
      for i := 0 to Slots - 1
        invariant forall k :: 0 <= k < i ==> rate[k] == before[k + 1]
        invariant forall k :: i <= k < Slots ==> rate[k] == before[k]
        invariant runningTotal == Sum(before[1..i + 1])
      {
        rate[i] := rate[i + 1];
        runningTotal := runningTotal + rate[i];
        ghost var upTo := before[1..i + 2];
        assert upTo[..|upTo| - 1] == before[1..i + 1];
        assert upTo[|upTo| - 1] == rate[i];
      }
      rate[Slots - 1] := IBI;
      runningTotal := runningTotal + rate[Slots - 1];
      ghost var h := Shift(before, IBI);
      assert h[..Slots - 1] == before[1..];
      assert rate[..] == h;
      assert before[1..Slots] == before[1..];
      assert runningTotal == Sum(h);
      BpmInRange(h);
      runningTotal := runningTotal / Slots;
      BPM := MsPerMinute / runningTotal;
    }

    /** The falling-edge block: when the sample drops below the threshold
        during a pulse, clear it and re-tune the threshold to half the amplitude. */
    method EndOfPulse()
      modifies this
      ensures Abstract() == Release(old(Abstract()))
    {
      if Signal < thresh && Pulse {
        led := false;
        Pulse := false;
        amp := P - T;
        thresh := amp / 2.0 + T;
        P := thresh;
        T := thresh;
      }
    }

    /** The dropout block: more than 2.5 s without a beat re-seeds the detector. */
    method DropoutCheck(n: int)
      modifies this
      ensures Abstract() == Supervise(old(Abstract()), n)
    {
      if n > DropoutMs {
        thresh := ResetThresh;
        P := ResetEnvelope;
        T := ResetEnvelope;
        lastBeatTime := sampleCounter;
        firstBeat := true;
        secondBeat := false;
      }
    }
  }
}
