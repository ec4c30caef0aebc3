/** Machine words of the TM4C1294 (a 32-bit Cortex-M4F).

    Memory-mapped registers are modelled as `bv32` values, so that `&`, `|`,
    `~`, `^` and `+` behave exactly as C's operators on `uint32_t`.  Program
    variables that the sources do arithmetic on (counters, averages,
    temperatures) are modelled as integers in 0 .. 2^32-1, with every
    wrap-around of C's unsigned arithmetic written out through `Wrap`. */
module Words {

  type Word = bv32

  const WORD_MODULUS: int := 0x1_0000_0000

  /** An `uint32_t` (also an `unsigned long` on this target) as an integer. */
  type U32 = x: int | 0 <= x < WORD_MODULUS

  /** C's conversion of an integer result to `uint32_t`: reduction modulo 2^32. */
  function Wrap(x: int): (r: U32)
    ensures (x - r) % WORD_MODULUS == 0
    ensures 0 <= x < WORD_MODULUS ==> r == x
  {
    x % WORD_MODULUS
  }

  /** Reducing a partial sum before the next addition does not change the
      reduced total: `uint32_t` accumulation is the integer sum modulo 2^32. */
  lemma WrapAdd(x: int, y: int)
    ensures Wrap(Wrap(x) + y) == Wrap(x + y)
  {
    var k := x / WORD_MODULUS;
    assert x == k * WORD_MODULUS + Wrap(x);
    assert (Wrap(x) + y) + k * WORD_MODULUS == x + y;
    ModuloShift(Wrap(x) + y, k);
  }

  lemma ModuloShift(a: int, k: int)
    ensures (a + k * WORD_MODULUS) % WORD_MODULUS == a % WORD_MODULUS
  {
  }

  /** What an `int` computation leaves on this target when its result does
      not fit in 32 bits: C leaves signed overflow undefined, and the
      Cortex-M4's `mul` and `add` reduce to 32-bit two's complement. */
  function WrapInt(x: int): (r: int)
    ensures -0x8000_0000 <= r < 0x8000_0000
    ensures (x - r) % WORD_MODULUS == 0
    ensures -0x8000_0000 <= x < 0x8000_0000 ==> r == x
  {
    var w := Wrap(x);
    if w < 0x8000_0000 then w else w - WORD_MODULUS
  }

  /** Integers that agree modulo 2^32 leave the same `int`. */
  lemma WrapIntCongruent(x: int, y: int)
    requires (x - y) % WORD_MODULUS == 0
    ensures WrapInt(x) == WrapInt(y)
  {
    var k := (x - y) / WORD_MODULUS;
    assert x == y + k * WORD_MODULUS;
    ModuloShift(y, k);
  }

  /** C's integer division, which truncates towards zero. */
  function TruncDiv(a: int, b: int): (q: int)
    requires b > 0
    ensures a >= 0 ==> q == a / b
    ensures a < 0 ==> q == -((-a) / b)
  {
    if a >= 0 then a / b else -((-a) / b)
  }

  /** Truncating division keeps the order of its dividends. */
  lemma TruncDivMonotone(a: int, a': int, b: int)
    requires b > 0 && a <= a'
    ensures TruncDiv(a, b) <= TruncDiv(a', b)
  {
    if a >= 0 {
      DivMonotone(a, a', b);
    } else if a' < 0 {
      DivMonotone(-a', -a, b);
    } else {
      DivMonotone(0, -a, b);
      DivMonotone(0, a', b);
    }
  }

  lemma DivMonotone(x: nat, y: nat, b: int)
    requires b > 0 && x <= y
    ensures x / b <= y / b
  {
    var qx, qy := x / b, y / b;
    if qx > qy {
      MulMonotoneLeft(b, qy + 1, qx);
      assert false;
    }
  }

  lemma MulMonotoneLeft(b: int, m: int, n: int)
    requires b > 0 && m <= n
    ensures b * m <= b * n
  {
  }

  /** `R |= m`: the bits of `m` become 1, every other bit keeps its value. */
  function SetBits(r: Word, m: Word): (r': Word)
    ensures (r' & m) == m
    ensures (r' & !m) == (r & !m)
  {
    r | m
  }

  /** `R &= ~m`: the bits of `m` become 0, every other bit keeps its value. */
  function ClearBits(r: Word, m: Word): (r': Word)
    ensures (r' & m) == 0
    ensures (r' & !m) == (r & !m)
  {
    r & !m
  }

  /** `R ^= m`: the bits of `m` are inverted, every other bit keeps its value. */
  function ToggleBits(r: Word, m: Word): (r': Word)
    ensures (r' & m) == (!r & m)
    ensures (r' & !m) == (r & !m)
  {
    r ^ m
  }

  /** The sources' read-modify-write idiom `R = (R & ~M) + v`.  When `v` lies
      inside the field `M` the addition cannot carry out of the field, so the
      write replaces exactly the field `M` by `v` and keeps every other bit. */
  function MaskedWrite(r: Word, m: Word, v: Word): (r': Word)
    ensures (v & !m) == 0 ==> (r' & m) == v && (r' & !m) == (r & !m)
  {
    MaskedWriteInField(r, m, v);
    (r & !m) + v
  }

  lemma MaskedWriteInField(r: Word, m: Word, v: Word)
    ensures (v & !m) == 0 ==> ((r & !m) + v) == ((r & !m) | v)
  {
  }

  /** Writing the same in-field value twice is writing it once. */
  lemma MaskedWriteTwice(r: Word, m: Word, v: Word)
    requires (v & !m) == 0
    ensures MaskedWrite(MaskedWrite(r, m, v), m, v) == MaskedWrite(r, m, v)
  {
    var once := MaskedWrite(r, m, v);
    assert (once & !m) == (r & !m);
  }
}
