/** The three constant lookup tables shared by every channel (apu.go:3-24): the duty patterns of
    the pulse channels, the 32-step triangle waveform and the length-counter load values. */
module Tables {
  import opened GoTypes

  /** One 8-step high/low pattern per duty cycle. */
  const SquareLookup: seq<seq<int>> := [
    [0, 1, 0, 0, 0, 0, 0, 0],
    [0, 1, 1, 0, 0, 0, 0, 0],
    [0, 1, 1, 1, 1, 0, 0, 0],
    [1, 0, 0, 1, 1, 1, 1, 1]
  ]

  const TriangleLookup: seq<int> := [
    8, 9, 10, 11, 12, 13, 14,
    15, 15, 14, 13, 12, 11, 10,
    9, 8, 7, 6, 5, 4, 3, 2, 1,
    0, 0, 1, 2, 3, 4, 5, 6, 7
  ]

  const LengthTable: seq<Word> := [
    10, 254, 20, 2, 40, 4, 80, 6,
    160, 8, 60, 10, 14, 12, 26, 14,
    12, 16, 24, 18, 48, 20, 96, 22,
    192, 24, 72, 26, 16, 28, 32, 30
  ]

  /** The number of high steps in a pattern. */
  function HighSteps(pattern: seq<int>): nat {
    if pattern == [] then 0 else (if pattern[0] == 1 then 1 else 0) + HighSteps(pattern[1..])
  }

  /** The duty table's entry for a duty cycle and a step: always a 0 or a 1. Duty cycle 3 is the
      exact complement of duty cycle 1, and the four patterns are high for 1, 2, 4 and 6 of their
      8 steps. */
  function DutyBit(duty: Word, step: Word): (b: int)
    requires duty < 4 && step < 8
    ensures b == 0 || b == 1
    ensures duty == 3 ==> b == 1 - DutyBit(1, step)
  {
    SquareLookup[duty as int][step as int]
  }

  lemma DutyWeights(d: int)
    requires 0 <= d < 4
    ensures |SquareLookup[d]| == 8
    ensures HighSteps(SquareLookup[d]) == [1, 2, 4, 6][d]
  {
    var p := SquareLookup[d];
    assert p[1..][1..][1..][1..][1..][1..][1..][1..] == [];
  }

  /** The triangle waveform as a closed formula: up from 8 to 15, down from 15 to 0, up from 0
      to 7. */
  function TriangleRamp(i: int): int {
    if i < 8 then 8 + i else if i < 24 then 23 - i else i - 24
  }

  /** The triangle table's entry at a step, which is the ramp formula and lies in 0..15. */
  function TriangleAt(i: int): (a: int)
    requires 0 <= i < 32
    ensures a == TriangleRamp(i)
    ensures 0 <= a <= 15
  {
    TriangleLookup[i]
  }

  /** The waveform's shape: each half mirrors itself, and the two halves, half a period apart,
      add up to the full amplitude 15. */
  lemma TriangleSymmetry(i: int)
    requires 0 <= i < 32
    ensures TriangleAt(i) + TriangleAt((i + 16) % 32) == 15
    ensures i < 16 ==> TriangleAt(i) == TriangleAt(15 - i)
    ensures 16 <= i ==> TriangleAt(i) == TriangleAt(47 - i)
  {
    var j := if i < 16 then i + 16 else i - 16;
    assert (i + 16) % 32 == j;
    assert TriangleAt(j) == TriangleRamp(j);
  }

  /** The length-counter load value for a 5-bit index: never below 2 and always even. */
  function LengthAt(i: int): (n: Word)
    requires 0 <= i < 32
    ensures 2 <= n && n & 1 == 0
    ensures i == 1 ==> n == 254
  {
    LengthTable[i]
  }

  /** Every odd index from 3 on loads one less than itself: index 2k+1 loads 2k. */
  lemma OddLengths(i: Word)
    requires 3 <= i < 32 && i & 1 == 1
    ensures LengthAt(i as int) == i - 1
  {
  }
}
