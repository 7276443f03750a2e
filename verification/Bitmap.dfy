/** Allocation bitmaps, one bit per page frame or disk block, packed eight to a byte. */
module Bitmap {

  type Bits = seq<bv8>

  /** `1 << bit` within a byte. */
  function Mask(bit: int): bv8
    requires 0 <= bit < 8
  {
    match bit
    case 0 => 1
    case 1 => 2
    case 2 => 4
    case 3 => 8
    case 4 => 16
    case 5 => 32
    case 6 => 64
    case 7 => 128
  }

  predicate Test(b: bv8, bit: int)
    requires 0 <= bit < 8
  {
    b & Mask(bit) != 0
  }

  function Set(b: bv8, bit: int): bv8
    requires 0 <= bit < 8
  {
    b | Mask(bit)
  }

  function Clear(b: bv8, bit: int): bv8
    requires 0 <= bit < 8
  {
    b & !Mask(bit)
  }

  lemma TestSet(b: bv8, i: int, j: int)
    requires 0 <= i < 8 && 0 <= j < 8
    ensures Test(Set(b, i), j) <==> i == j || Test(b, j)
  {
  }

  lemma TestClear(b: bv8, i: int, j: int)
    requires 0 <= i < 8 && 0 <= j < 8
    ensures Test(Clear(b, i), j) <==> i != j && Test(b, j)
  {
  }

  predicate Bit(m: Bits, i: int)
    requires 0 <= i < 8 * |m|
  {
    Test(m[i / 8], i % 8)
  }

  function SetBit(m: Bits, i: int): (r: Bits)
    requires 0 <= i < 8 * |m|
    ensures |r| == |m|
  {
    m[i / 8 := Set(m[i / 8], i % 8)]
  }

  function ClearBit(m: Bits, i: int): (r: Bits)
    requires 0 <= i < 8 * |m|
    ensures |r| == |m|
  {
    m[i / 8 := Clear(m[i / 8], i % 8)]
  }

  /** Setting changes one bit. */
  lemma BitAfterSet(m: Bits, i: int, j: int)
    requires 0 <= i < 8 * |m| && 0 <= j < 8 * |m|
    ensures Bit(SetBit(m, i), j) <==> i == j || Bit(m, j)
  {
    hide Test, Set;
    TestSet(m[j / 8], i % 8, j % 8);
  }

  /** Clearing changes one bit. */
  lemma BitAfterClear(m: Bits, i: int, j: int)
    requires 0 <= i < 8 * |m| && 0 <= j < 8 * |m|
    ensures Bit(ClearBit(m, i), j) <==> i != j && Bit(m, j)
  {
    hide Test, Clear;
    TestClear(m[j / 8], i % 8, j % 8);
  }

  /** `find_free_pages` and the scan of `find_free_block`: the lowest clear bit below n, or -1. */
  method FindFree(m: Bits, bytes: nat, n: nat) returns (idx: int)
    requires n <= 8 * bytes && bytes <= |m|
    ensures idx == -1 || 0 <= idx < n
    ensures idx == -1 ==> forall j :: 0 <= j < n ==> Bit(m, j)
    ensures idx != -1 ==> !Bit(m, idx) && forall j :: 0 <= j < idx ==> Bit(m, j)
  {
    var byteIdx := 0;
    while byteIdx < bytes
      invariant 0 <= byteIdx <= bytes
      invariant forall j :: 0 <= j < 8 * byteIdx ==> Bit(m, j)
    {
      if m[byteIdx] != 0xFF {
        var bit := 0;
        while bit < 8
          invariant 0 <= bit <= 8
          invariant forall j :: 0 <= j < 8 * byteIdx + bit ==> Bit(m, j)
        {
          idx := byteIdx * 8 + bit;
          if idx >= n {
            return -1;
          }
          if !Test(m[byteIdx], bit) {
            return;
          }
          bit := bit + 1;
        }
      } else {
        forall j | 8 * byteIdx <= j < 8 * byteIdx + 8 ensures Bit(m, j) {
          assert Test(0xFF, j % 8);
        }
      }
      byteIdx := byteIdx + 1;
    }
    return -1;
  }

  /** How many of the first n bits are clear. */
  function FreeCount(m: Bits, n: nat): nat
    requires n <= 8 * |m|
  {
    if n == 0 then 0 else FreeCount(m, n - 1) + if Bit(m, n - 1) then 0 else 1
  }

  lemma FreeCountPositive(m: Bits, n: nat)
    requires n <= 8 * |m|
    ensures FreeCount(m, n) > 0 <==> exists i :: 0 <= i < n && !Bit(m, i)
  {
  }

  lemma {:induction false} FreeCountSet(m: Bits, n: nat, i: int)
    requires n <= 8 * |m| && 0 <= i < 8 * |m| && !Bit(m, i)
    ensures FreeCount(SetBit(m, i), n) == FreeCount(m, n) - if i < n then 1 else 0
  {
    hide Test, Set;
    if n > 0 {
      FreeCountSet(m, n - 1, i);
      BitAfterSet(m, i, n - 1);
    }
  }

  lemma {:induction false} FreeCountClear(m: Bits, n: nat, i: int)
    requires n <= 8 * |m| && 0 <= i < 8 * |m| && Bit(m, i)
    ensures FreeCount(ClearBit(m, i), n) == FreeCount(m, n) + if i < n then 1 else 0
  {
    hide Test, Clear;
    if n > 0 {
      FreeCountClear(m, n - 1, i);
      BitAfterClear(m, i, n - 1);
    }
  }

  lemma {:induction false} FreeCountSame(m: Bits, m': Bits, n: nat)
    requires n <= 8 * |m| && n <= 8 * |m'| && forall i :: 0 <= i < n ==> (Bit(m, i) <==> Bit(m', i))
    ensures FreeCount(m, n) == FreeCount(m', n)
  {
    hide Bit;
    if n > 0 {
      FreeCountSame(m, m', n - 1);
    }
  }

  /** In an empty map every bit is free. */
  lemma {:induction false} FreeCountAll(m: Bits, n: nat)
    requires n <= 8 * |m| && forall i :: 0 <= i < n ==> !Bit(m, i)
    ensures FreeCount(m, n) == n
  {
    if n > 0 {
      FreeCountAll(m, n - 1);
    }
  }
}
