/** Bits of the fixed-width unsigned words of the C code, over the naturals.
    `ShiftRight(v, n)` is `v >> n` and `SetBit(v, k)` is `v | (1 << k)`. */
module WordBits {

  function ShiftRight(v: nat, n: nat): nat
  {
    if n == 0 then v else ShiftRight(v / 2, n - 1)
  }

  predicate Bit(v: nat, k: nat)
  {
    if k == 0 then v % 2 == 1 else Bit(v / 2, k - 1)
  }

  function SetBit(v: nat, k: nat): nat
  {
    if k == 0 then (if v % 2 == 1 then v else v + 1) else 2 * SetBit(v / 2, k - 1) + v % 2
  }

  function Pow2(n: nat): nat
  {
    if n == 0 then 1 else 2 * Pow2(n - 1)
  }

  lemma {:induction false} BitOfShift(v: nat, n: nat, k: nat)
    ensures Bit(ShiftRight(v, n), k) == Bit(v, n + k)
  {
    if n > 0 { BitOfShift(v / 2, n - 1, k); }
  }

  lemma {:induction false} BitOfSet(v: nat, k: nat, j: nat)
    ensures Bit(SetBit(v, k), j) == (j == k || Bit(v, j))
  {
    if k > 0 && j > 0 { BitOfSet(v / 2, k - 1, j - 1); }
  }

  /** A word that fits in n bits has no bit at position n or above. */
  lemma {:induction false} NoHighBit(v: nat, n: nat, k: nat)
    requires v < Pow2(n) && n <= k
    ensures !Bit(v, k)
  {
    if k > 0 { NoHighBit(v / 2, if n == 0 then 0 else n - 1, k - 1); }
  }

  /** Neither a right shift nor setting a low bit leaves the word's width. */
  lemma {:induction false} ShiftFits(v: nat, n: nat)
    ensures ShiftRight(v, n) <= v
  {
    if n > 0 { ShiftFits(v / 2, n - 1); }
  }

  lemma {:induction false} SetFits(v: nat, k: nat, n: nat)
    requires v < Pow2(n) && k < n
    ensures SetBit(v, k) < Pow2(n)
  {
    if k > 0 { SetFits(v / 2, k - 1, n - 1); }
  }
}
