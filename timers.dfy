/** The 11-bit timer fields of the pulse and triangle channels. They are Go ints that the timer-low
    and timer-high registers update one byte at a time (apu.go:75-82, 348-355). */
module Timers {
  import opened GoTypes

  /** `timer & 0x700` on a Go int: bits 8-10 of its two's-complement form. Dafny's `%` never
      returns a negative value, so for a negative timer it picks the same bits. */
  function Bits8To10(timer: int): (r: int)
    ensures 0 <= r < 0x800 && r % 0x100 == 0
    ensures r / 0x100 == timer % 0x800 / 0x100
    ensures 0 <= timer < 0x800 ==> r / 0x100 == timer / 0x100
  {
    timer % 0x800 - timer % 0x100
  }

  /** `(timer & 0x700) | int(v)`: the byte becomes bits 0-7, bits 8-10 are kept and every
      higher bit is cleared. The OR is an addition, because bits 0-7 of the masked timer are 0. */
  function WithLowByte(timer: int, v: Word): (r: int)
    ensures 0 <= r < 0x800
    ensures r % 0x100 == v as int
    ensures r / 0x100 == timer % 0x800 / 0x100
  {
    Bits8To10(timer) + v as int
  }

  /** `(timer & 0xFF) | int(h << 8)`. The shift is done in a Word, whose width is WordBits = 8, so
      `h << WordBits` is 0 and only the timer's low byte survives, whatever the written bits were. */
  function WithHighBits(timer: int, h: Word): (r: int)
    ensures r == timer % 0x100
    ensures 0 <= r < 0x100
  {
    timer % 0x100 + (h << WordBits) as int
  }

  /** A timer-low write is idempotent, and a timer-high write after it leaves exactly the written
      low byte: the high bits never reach the timer. */
  lemma LowThenHigh(timer: int, v: Word, h: Word)
    ensures WithLowByte(WithLowByte(timer, v), v) == WithLowByte(timer, v)
    ensures WithHighBits(WithLowByte(timer, v), h) == v as int
  {
    var r := WithLowByte(timer, v);
    assert r == r / 0x100 * 0x100 + v as int;
  }

  /** On an 11-bit timer, a timer-low write changes only the low byte: the timer moves by the
      difference between the new and the old byte. */
  lemma LowByteOnly(timer: int, v: Word)
    requires 0 <= timer < 0x800
    ensures WithLowByte(timer, v) == timer - timer % 0x100 + v as int
  {
  }
}
