/** The frame numbers of the user pool as machine words. */
module UserFrames {
  import opened Sv39

  const FRAMES: int := 0x9000             // FREE_USER_PAGE_NUM

  /** A hexadecimal digit as a word. */
  function Digit(d: int): Word
    requires 0 <= d < 16
  {
    match d
    case 0 => 0 case 1 => 1 case 2 => 2 case 3 => 3 case 4 => 4 case 5 => 5 case 6 => 6 case 7 => 7
    case 8 => 8 case 9 => 9 case 10 => 10 case 11 => 11 case 12 => 12 case 13 => 13 case 14 => 14 case 15 => 15
  }

  function Low(n: int): int {
    n % 16
  }

  /** n without its last k digits. */
  function Drop(n: int, k: nat): int {
    if k == 0 then n else Drop(n, k - 1) / 16
  }

  /** Digit k of n, as a word. */
  function Nibble(n: int, k: nat): Word {
    Digit(Low(Drop(n, k)))
  }

  function Join(a: Word, b: Word, c: Word, d: Word, e: Word): Word {
    (a << 16) | (b << 12) | (c << 8) | (d << 4) | e
  }

  /** The physical frame number of user frame f: kva2pa(USER_MEM_BASE) is page 0x54000. */
  function Pfn(f: int): Word {
    var n := 0x54000 + f;
    Join(Nibble(n, 4), Nibble(n, 3), Nibble(n, 2), Nibble(n, 1), Nibble(n, 0))
  }

  lemma DigitFits(d: int)
    requires 0 <= d < 16
    ensures Digit(d) < 16
  {
  }

  lemma DigitInjective(a: int, b: int)
    requires 0 <= a < 16 && 0 <= b < 16 && Digit(a) == Digit(b)
    ensures a == b
  {
  }

  lemma NibbleFits(n: int, k: nat)
    ensures Nibble(n, k) < 16
  {
    hide Digit;
    DigitFits(Low(Drop(n, k)));
  }

  lemma JoinFits(a: Word, b: Word, c: Word, d: Word, e: Word)
    requires a < 16 && b < 16 && c < 16 && d < 16 && e < 16
    ensures Join(a, b, c, d, e) <= PFN_MASK
  {
  }

  lemma JoinInjective(a: Word, b: Word, c: Word, d: Word, e: Word, a': Word, b': Word, c': Word, d': Word, e': Word)
    requires a < 16 && b < 16 && c < 16 && d < 16 && e < 16 && a' < 16 && b' < 16 && c' < 16 && d' < 16 && e' < 16
    requires Join(a, b, c, d, e) == Join(a', b', c', d', e')
    ensures a == a' && b == b' && c == c' && d == d' && e == e'
  {
  }

  lemma PfnFits(f: int)
    ensures Pfn(f) <= PFN_MASK
  {
    hide Nibble, Join;
    var n := 0x54000 + f;
    NibbleFits(n, 0); NibbleFits(n, 1); NibbleFits(n, 2); NibbleFits(n, 3); NibbleFits(n, 4);
    JoinFits(Nibble(n, 4), Nibble(n, 3), Nibble(n, 2), Nibble(n, 1), Nibble(n, 0));
  }

  /** Numbers that agree above digit k and in digit k agree above the digits below it. */
  lemma SameDrop(m: int, n: int, k: nat)
    requires Drop(m, k + 1) == Drop(n, k + 1) && Nibble(m, k) == Nibble(n, k)
    ensures Drop(m, k) == Drop(n, k)
  {
    hide Digit;
    DigitInjective(Low(Drop(m, k)), Low(Drop(n, k)));
  }

  lemma DropAll(n: int)
    requires 0 <= n < 0x100000
    ensures Drop(n, 5) == 0
  {
    assert Drop(n, 1) == n / 16 && Drop(n, 2) == Drop(n, 1) / 16 && Drop(n, 3) == Drop(n, 2) / 16;
    assert Drop(n, 4) == Drop(n, 3) / 16 && Drop(n, 5) == Drop(n, 4) / 16;
  }

  lemma DropNone(n: int)
    ensures Drop(n, 0) == n
  {
  }

  /** Different frames have different frame numbers. */
  lemma PfnInjective(f: int, g: int)
    requires 0 <= f < FRAMES && 0 <= g < FRAMES && Pfn(f) == Pfn(g)
    ensures f == g
  {
    hide Nibble, Join, Drop;
    var m, n := 0x54000 + f, 0x54000 + g;
    NibbleFits(m, 0); NibbleFits(m, 1); NibbleFits(m, 2); NibbleFits(m, 3); NibbleFits(m, 4);
    NibbleFits(n, 0); NibbleFits(n, 1); NibbleFits(n, 2); NibbleFits(n, 3); NibbleFits(n, 4);
    JoinInjective(Nibble(m, 4), Nibble(m, 3), Nibble(m, 2), Nibble(m, 1), Nibble(m, 0),
                  Nibble(n, 4), Nibble(n, 3), Nibble(n, 2), Nibble(n, 1), Nibble(n, 0));
    DropAll(m);
    DropAll(n);
    SameDrop(m, n, 4);
    SameDrop(m, n, 3);
    SameDrop(m, n, 2);
    SameDrop(m, n, 1);
    SameDrop(m, n, 0);
    DropNone(m);
    DropNone(n);
  }

  // ---------------------------------------------------------------- the number itself

  /** The value of a hexadecimal digit, and of a word of five of them. */
  function Value(w: Word): int {
    if w == 0 then 0 else if w == 1 then 1 else if w == 2 then 2 else if w == 3 then 3
    else if w == 4 then 4 else if w == 5 then 5 else if w == 6 then 6 else if w == 7 then 7
    else if w == 8 then 8 else if w == 9 then 9 else if w == 10 then 10 else if w == 11 then 11
    else if w == 12 then 12 else if w == 13 then 13 else if w == 14 then 14 else 15
  }

  function Number(w: Word): int {
    0x1_0000 * Value((w >> 16) & 15) + 0x1000 * Value((w >> 12) & 15) + 0x100 * Value((w >> 8) & 15)
    + 0x10 * Value((w >> 4) & 15) + Value(w & 15)
  }

  lemma DigitValue(d: int)
    requires 0 <= d < 16
    ensures Value(Digit(d)) == d
  {
  }

  lemma JoinParts(a: Word, b: Word, c: Word, d: Word, e: Word)
    requires a < 16 && b < 16 && c < 16 && d < 16 && e < 16
    ensures var w := Join(a, b, c, d, e);
            && (w >> 16) & 15 == a && (w >> 12) & 15 == b && (w >> 8) & 15 == c && (w >> 4) & 15 == d && w & 15 == e
            && w < 0x10_0000
  {
  }

  lemma DropStep(n: int, k: nat)
    ensures Drop(n, k) == 16 * Drop(n, k + 1) + Low(Drop(n, k)) && 0 <= Low(Drop(n, k)) < 16
  {
  }

  /** User frame f is physical page 0x54000 + f. */
  lemma PfnIs(f: int)
    requires 0 <= f < FRAMES
    ensures Pfn(f) < 0x10_0000 && Number(Pfn(f)) == 0x54000 + f
  {
    hide Join, Drop, Digit, Value, Low;
    var n := 0x54000 + f;
    NibbleFits(n, 0); NibbleFits(n, 1); NibbleFits(n, 2); NibbleFits(n, 3); NibbleFits(n, 4);
    JoinParts(Nibble(n, 4), Nibble(n, 3), Nibble(n, 2), Nibble(n, 1), Nibble(n, 0));
    DropStep(n, 0); DropStep(n, 1); DropStep(n, 2); DropStep(n, 3); DropStep(n, 4);
    DropAll(n);
    DropNone(n);
    DigitValue(Low(Drop(n, 0))); DigitValue(Low(Drop(n, 1))); DigitValue(Low(Drop(n, 2)));
    DigitValue(Low(Drop(n, 3))); DigitValue(Low(Drop(n, 4)));
  }
}
