/**
 * The display side of the pulse meter: BPM split into three decimal
 * digits, each digit turned into a seven-segment pattern, and one pass of
 * the main loop, which lights one of the three displays and moves the
 * multiplexing counter on.
 */
module Display {
  import Pulse

  // Segment patterns of the digits (bit set = segment lit).
  const ZeroCode: bv8 := 0x7E
  const OneCode: bv8 := 0x30
  const TwoCode: bv8 := 0x6D
  const ThreeCode: bv8 := 0x79
  const FourCode: bv8 := 0x33
  const FiveCode: bv8 := 0x5B
  const SixCode: bv8 := 0x5F
  const SevenCode: bv8 := 0x71
  const EightCode: bv8 := 0x7F
  const NineCode: bv8 := 0x7B

  // Selector codes of the three displays (bit clear = display on).
  const Seg1: bv8 := 0x0E
  const Seg2: bv8 := 0x0D
  const Seg3: bv8 := 0x0B

  /** The patterns as a table indexed by digit. */
  const DigitTable: seq<bv8> :=
    [ZeroCode, OneCode, TwoCode, ThreeCode, FourCode, FiveCode, SixCode, SevenCode, EightCode, NineCode]

  /** The selector codes as a table indexed by display position. */
  const SelectorTable: seq<bv8> := [Seg1, Seg2, Seg3]

  /** The pattern `displayPulse` puts on the segment port for `digit`. */
  function DisplayPulse(digit: int): bv8 {
    if digit == 0 then ZeroCode
    else if digit == 1 then OneCode
    else if digit == 2 then TwoCode
    else if digit == 3 then ThreeCode
    else if digit == 4 then FourCode
    else if digit == 5 then FiveCode
    else if digit == 6 then SixCode
    else if digit == 7 then SevenCode
    else if digit == 8 then EightCode
    else NineCode
  }

  /** The chain of ifs is the table lookup, with every value outside 0..8
      shown as a nine. */
  lemma DisplayPulseIsLookup(digit: int)
    ensures DisplayPulse(digit) == DigitTable[if 0 <= digit <= 8 then digit else 9]
  {
  }

  /** Different decimal digits light different segments. */
  lemma DigitsDistinguishable(a: int, b: int)
    requires 0 <= a <= 9 && 0 <= b <= 9 && a != b
    ensures DisplayPulse(a) != DisplayPulse(b)
  {
  }

  // ---------------------------------------------------------------- digits

  /** C's `/` on `int`: the quotient truncated toward zero. */
  function Quot(a: int, b: int): int
    requires b > 0
  {
    if a >= 0 then a / b else -((-a) / b)
  }

  /** C's `%` on `int`: the remainder that goes with Quot. */
  function Rem(a: int, b: int): int
    requires b > 0
  {
    a - Quot(a, b) * b
  }

  /** Conversion of an `int` to `unsigned char`: modulo 256. */
  function ToByte(x: int): int {
    x % 256
  }

  datatype Digits = Digits(dig1: int, dig2: int, dig3: int)

  /** The digits of BPM as the main loop computes them into three
      `unsigned char`s. */
  function SplitDigits(bpm: int): Digits {
    var dig1 := ToByte(Quot(bpm, 100));
    if dig1 >= 1 then
      Digits(dig1, ToByte(Quot(Rem(bpm, 100), 10)), ToByte(Rem(bpm, 10)))
    else
      Digits(dig1, ToByte(Quot(bpm, 10)), ToByte(Rem(bpm, 10)))
  }

  /** For 0 <= bpm <= 999 the three digits are its hundreds, tens and ones:
      both branches compute the same tens digit. */
  lemma SplitDigitsDecimal(bpm: int)
    requires 0 <= bpm <= 999
    ensures var d := SplitDigits(bpm);
      && 0 <= d.dig1 <= 9 && 0 <= d.dig2 <= 9 && 0 <= d.dig3 <= 9
      && 100 * d.dig1 + 10 * d.dig2 + d.dig3 == bpm
      && d.dig2 == (bpm % 100) / 10
  {
    var q, r := bpm / 100, bpm % 100;
    var t, o := r / 10, r % 10;
    assert bpm == 100 * q + r && 0 <= q <= 9;
    assert r == 10 * t + o && 0 <= t <= 9;
    assert bpm == 10 * (10 * q + t) + o;
    assert bpm % 10 == o && bpm / 10 == 10 * q + t;
    assert Quot(bpm, 100) == q && Rem(bpm, 100) == r;
    assert Quot(r, 10) == t && Rem(bpm, 10) == o;
  }

  /** Every BPM the detector can hold is shown exactly, with a hundreds
      digit of at most 2. */
  lemma DetectorBpmDisplayed(s: Pulse.State)
    requires Pulse.Inv(s)
    ensures var d := SplitDigits(s.BPM);
      && 100 * d.dig1 + 10 * d.dig2 + d.dig3 == s.BPM
      && 0 <= d.dig1 <= 2 && 0 <= d.dig2 <= 9 && 0 <= d.dig3 <= 9
  {
    SplitDigitsDecimal(s.BPM);
  }

  // ---------------------------------------------------------------- multiplexing

  /** A write to one of the two display ports. */
  datatype PortWrite = SetSegments(pattern: bv8) | SetSelector(code: bv8)

  /** The digit shown at display position `slot` (0, 1, 2 from the left). */
  function DigitAt(d: Digits, slot: int): int
    requires 0 <= slot < 3
  {
    if slot == 0 then d.dig1 else if slot == 1 then d.dig2 else d.dig3
  }

  /** The display position a counter value selects. */
  function Slot(count: int): int {
    count % 3
  }

  /** The counter after a pass that lit position Slot(count). */
  function NextCount(count: int): int {
    Slot(count) + 1
  }

  /** One pass of the main loop: split BPM, then, for a counter in 0..3,
      light the display at position count mod 3 with its digit and advance
      the counter; the ports are written in that order, pattern first. The
      loop only ever holds counters in 0..3; any other value writes nothing. */
  method Refresh(bpm: int, count: int) returns (next: int, writes: seq<PortWrite>)
    ensures 0 <= count <= 3 ==>
      && next == NextCount(count)
      && writes == [SetSegments(DisplayPulse(DigitAt(SplitDigits(bpm), Slot(count)))),
                    SetSelector(SelectorTable[Slot(count)])]
    ensures !(0 <= count <= 3) ==> next == count && writes == []
  {
    var digits := SplitDigits(bpm);
    next := count;
    writes := [];
    if next == 3 {
      next := 0;
    }
    if next == 2 {
      writes := writes + [SetSegments(DisplayPulse(digits.dig3)), SetSelector(Seg3)];
      next := next + 1;
    }
    if next == 1 {
      writes := writes + [SetSegments(DisplayPulse(digits.dig2)), SetSelector(Seg2)];
      next := next + 1;
    }
    if next == 0 {
      writes := writes + [SetSegments(DisplayPulse(digits.dig1)), SetSelector(Seg1)];
      next := next + 1;
    }
  }

  /** The counter stays in 1..3 after the first pass, and successive passes
      select the displays in the order SEG1, SEG2, SEG3, SEG1, ... so that
      any three passes in a row light all three once. */
  lemma MultiplexCycle(count: int)
    requires 0 <= count <= 3
    ensures 1 <= NextCount(count) <= 3
    ensures Slot(NextCount(count)) == (Slot(count) + 1) % 3
    ensures {Slot(count), Slot(NextCount(count)), Slot(NextCount(NextCount(count)))} == {0, 1, 2}
    ensures Slot(NextCount(NextCount(NextCount(count)))) == Slot(count)
  {
  }
}
