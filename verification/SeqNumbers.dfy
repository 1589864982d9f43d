/** TCP sequence numbers: residues modulo 2^32 compared by signed wrapping difference. */
module SeqNumbers {

  const MODULUS: int := 0x1_0000_0000
  const HALF: int := 0x8000_0000
  const I32_MAX: int := 0x7fff_ffff

  /** The 32 bits of a `SeqNumber`, read as an unsigned residue. */
  type SeqNumber = x: int | 0 <= x < MODULUS

  /** Adding more than `i32::MAX` panics in the source, hence the precondition. */
  function Add(a: SeqNumber, n: nat): SeqNumber
    requires n <= I32_MAX
  {
    if a + n >= MODULUS then a + n - MODULUS else a + n
  }

  function Pred(a: SeqNumber): SeqNumber {
    if a == 0 then MODULUS - 1 else a - 1
  }

  /** The signed 32-bit difference `a - b`. */
  function Diff(a: SeqNumber, b: SeqNumber): (d: int)
    ensures -HALF <= d < HALF
  {
    var d := a - b;
    if d >= HALF then d - MODULUS else if d < -HALF then d + MODULUS else d
  }

  predicate Lt(a: SeqNumber, b: SeqNumber) {
    Diff(a, b) < 0
  }

  predicate Le(a: SeqNumber, b: SeqNumber) {
    Diff(a, b) <= 0
  }

  predicate Gt(a: SeqNumber, b: SeqNumber) {
    Diff(a, b) > 0
  }

  predicate Ge(a: SeqNumber, b: SeqNumber) {
    Diff(a, b) >= 0
  }

  /** Subtraction of sequence numbers; the source panics when the difference is negative. */
  function Minus(a: SeqNumber, b: SeqNumber): nat
    requires Ge(a, b)
  {
    Diff(a, b)
  }

  function Max(a: SeqNumber, b: SeqNumber): SeqNumber {
    if Gt(a, b) then a else b
  }

  function Min(a: SeqNumber, b: SeqNumber): SeqNumber {
    if Lt(a, b) then a else b
  }

  lemma DiffAdd(a: SeqNumber, b: SeqNumber, n: nat)
    requires n <= I32_MAX && Diff(a, b) + n < HALF
    ensures Diff(Add(a, n), b) == Diff(a, b) + n
  {
  }

  /** The residue of an unbounded stream position. */
  function Wrap(n: int): SeqNumber {
    n % MODULUS
  }

  /** The position of `a` counted from `origin`, recovered from the residues alone. */
  function Off(a: SeqNumber, origin: SeqNumber): (k: nat)
    ensures k < MODULUS
  {
    if a >= origin then a - origin else a - origin + MODULUS
  }

  /** Wrapping addition is addition of positions. */
  lemma WrapAdd(x: int, n: nat)
    requires n <= I32_MAX
    ensures Add(Wrap(x), n) == Wrap(x + n)
  {
  }

  /** Within half the sequence space, wrapping comparison is comparison of positions. */
  lemma WrapDiff(x: int, y: int)
    requires -HALF <= x - y < HALF
    ensures Diff(Wrap(x), Wrap(y)) == x - y
  {
  }

  /** The same two facts for positions recovered from the residues. */
  lemma OffAdd(a: SeqNumber, origin: SeqNumber, n: nat)
    requires n <= I32_MAX
    requires Off(a, origin) + n < MODULUS
    ensures Off(Add(a, n), origin) == Off(a, origin) + n
  {
  }

  lemma OffDiff(a: SeqNumber, b: SeqNumber, origin: SeqNumber)
    requires -HALF <= Off(a, origin) - Off(b, origin) < HALF
    ensures Diff(a, b) == Off(a, origin) - Off(b, origin)
  {
  }
}
