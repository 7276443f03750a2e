/** The user-level storage allocator and the kernel call it grows through.
    Addresses are header-unit numbers (16 bytes each); 0 is the null pointer. */
module Malloc {

  datatype Header = Header(ptr: int, size: int)

  const UNIT: nat := 16
  const PAGE_SIZE: nat := 4096
  const MIN_UNITS: nat := 4096
  const WORD: nat := 0x1_0000_0000_0000_0000
  const STACK_END: nat := 0xf_0001_0000 - 5 * PAGE_SIZE

  // ---------------------------------------------------------------- request arithmetic

  /** The unit count `malloc` computes, in 64-bit arithmetic. */
  function NUnits(nbytes: nat): nat {
    (nbytes + UNIT - 1) % WORD / UNIT + 1
  }

  /** The kernel's rounding of an increment to whole pages, in 64-bit arithmetic. */
  function RoundPage(n: nat): nat {
    (n + PAGE_SIZE - 1) % WORD / PAGE_SIZE * PAGE_SIZE
  }

  datatype Option<T> = None | Some(value: T)

  /** `do_sbrk`: the new break, or None where the source returns -1. */
  function Sbrk(brk: nat, increment: nat): Option<nat> {
    var sum := (brk + RoundPage(increment)) % WORD;
    if sum < STACK_END then Some(sum) else None
  }

  /** How many units `morecore` gets for a request, and what it asks the kernel for. */
  function Asked(nunits: nat): nat {
    if nunits < MIN_UNITS then MIN_UNITS else nunits
  }

  function GrowBytes(nunits: nat): nat {
    Asked(nunits) * UNIT % WORD
  }

  /** A request is served soundly: the header count leaves room for the bytes asked for, and the
      kernel either refuses to grow or moves the break past all units `morecore` believes it got. */
  ghost predicate RequestSound(brk: nat, nbytes: nat) {
    var nu := NUnits(nbytes);
    && (nu - 1) * UNIT >= nbytes
    && match Sbrk(brk, GrowBytes(nu))
       case None => true
       case Some(brk') => brk' >= brk + Asked(nu) * UNIT
  }

  /** The exact mathematical growth for a unit count, before any wrap-around. */
  function ExactPages(nunits: nat): nat {
    (Asked(nunits) * UNIT + PAGE_SIZE - 1) / PAGE_SIZE * PAGE_SIZE
  }

  function ExactGrowth(nbytes: nat): nat {
    ExactPages((nbytes + UNIT - 1) / UNIT + 1)
  }

  /** The 64-bit arithmetic is right exactly when the break plus the rounded growth does not wrap. */
  lemma RequestSoundExactly(brk: nat, nbytes: nat)
    requires brk < STACK_END && brk % PAGE_SIZE == 0 && nbytes < WORD
    ensures RequestSound(brk, nbytes) <==> brk + ExactGrowth(nbytes) < WORD
  {
    hide Sbrk;
    if nbytes + UNIT - 1 >= WORD {
      CountWraps(nbytes);
    } else {
      var nu := NUnits(nbytes);
      assert nu == (nbytes + UNIT - 1) / UNIT + 1 && (nu - 1) * UNIT >= nbytes;
      SbrkExactly(brk, Asked(nu));
    }
  }

  lemma CountWraps(nbytes: nat)
    requires nbytes < WORD <= nbytes + UNIT - 1
    ensures NUnits(nbytes) == 1 && ExactGrowth(nbytes) >= WORD
  {
    assert (nbytes + UNIT - 1) / UNIT == WORD / UNIT;
  }

  /** A growth of n units moves the break past them, or is refused, exactly when nothing wraps. */
  lemma SbrkExactly(brk: nat, n: nat)
    requires brk < STACK_END && 0 < n <= WORD / UNIT
    ensures var exact := (n * UNIT + PAGE_SIZE - 1) / PAGE_SIZE * PAGE_SIZE;
            (match Sbrk(brk, n * UNIT % WORD) case None => true case Some(brk') => brk' >= brk + n * UNIT)
            <==> brk + exact < WORD
  {
    hide RoundPage;
    if n * UNIT <= WORD - PAGE_SIZE {
      RoundExact(n * UNIT);
    } else {
      RoundWraps(n * UNIT);
    }
  }

  /** The last page below 2^64 rounds to 0. */
  lemma RoundWraps(x: nat)
    requires WORD - PAGE_SIZE < x <= WORD
    ensures RoundPage(x % WORD) == 0 && (x + PAGE_SIZE - 1) / PAGE_SIZE * PAGE_SIZE == WORD
  {
    assert (x + PAGE_SIZE - 1) / PAGE_SIZE == WORD / PAGE_SIZE;
  }

  /** A growth is granted exactly if it ends below the stack, and then it is whole pages: up to a page less a byte more
      than was asked for. */
  lemma SbrkGrants(brk: nat, nunits: nat)
    requires brk < STACK_END && brk + ExactPages(nunits) < WORD
    ensures Sbrk(brk, GrowBytes(nunits)).Some? <==> brk + ExactPages(nunits) < STACK_END
    ensures Sbrk(brk, GrowBytes(nunits)).Some? ==> Sbrk(brk, GrowBytes(nunits)).value == brk + ExactPages(nunits)
    ensures Asked(nunits) * UNIT <= ExactPages(nunits) < Asked(nunits) * UNIT + PAGE_SIZE
            && ExactPages(nunits) % PAGE_SIZE == 0
  {
    hide RoundPage;
    RoundExact(Asked(nunits) * UNIT);
  }

  /** Rounding to pages, where that does not wrap. */
  lemma RoundExact(x: nat)
    requires (x + PAGE_SIZE - 1) / PAGE_SIZE * PAGE_SIZE < WORD
    ensures var exact := (x + PAGE_SIZE - 1) / PAGE_SIZE * PAGE_SIZE;
            x <= exact < x + PAGE_SIZE && x < WORD && RoundPage(x) == exact && exact % PAGE_SIZE == 0
  {
    var q, r := (x + PAGE_SIZE - 1) / PAGE_SIZE, (x + PAGE_SIZE - 1) % PAGE_SIZE;
    assert x + PAGE_SIZE - 1 == PAGE_SIZE * q + r && q < WORD / PAGE_SIZE;
  }

  lemma UnitsSuffice(brk: nat, nbytes: nat)
    requires brk < STACK_END && brk % PAGE_SIZE == 0 && nbytes < WORD && brk + ExactGrowth(nbytes) < WORD
    ensures NUnits(nbytes) >= 1 && nbytes <= (NUnits(nbytes) - 1) * UNIT < nbytes + UNIT
    ensures brk + ExactPages(NUnits(nbytes)) < WORD
  {
    RequestSoundExactly(brk, nbytes);
  }

  /** Asking for 2^64 - 1 bytes yields one unit, which has no payload at all, wherever the break is. */
  lemma HugeRequestUnsound(brk: nat)
    requires brk < STACK_END && brk % PAGE_SIZE == 0
    ensures NUnits(WORD - 1) == 1 && !RequestSound(brk, WORD - 1)
  {
  }

  // ---------------------------------------------------------------- the free ring

  type Memory = map<int, Header>

  /** The ring member after position i; the last one links back to `base`. */
  function Succ(ring: seq<int>, i: nat): int
    requires i < |ring|
  {
    if i + 1 < |ring| then ring[i + 1] else ring[0]
  }

  /** The ring starts at `base` (of size 0), ascends without overlap to its last member and wraps once. */
  ghost predicate RingOk(mem: Memory, base: int, ring: seq<int>) {
    && |ring| >= 1 && ring[0] == base
    && (forall i :: 0 <= i < |ring| ==> ring[i] in mem)
    && (forall i {:trigger mem[ring[i]]} :: 0 <= i < |ring| ==>
          && mem[ring[i]].ptr == Succ(ring, i)
          && (i + 1 < |ring| ==> ring[i] + mem[ring[i]].size <= ring[i + 1]))
    && mem[base].size == 0
    && Ascending(ring)
  }

  ghost predicate Ascending(s: seq<int>) {
    forall i, j :: 0 <= i < j < |s| ==> s[i] < s[j]
  }

  /** The free blocks: every ring member but `base`. */
  ghost function FreeSet(ring: seq<int>): set<int> {
    set i | 1 <= i < |ring| :: ring[i]
  }

  /** No two free blocks touch. */
  ghost predicate Coalesced(mem: Memory, free: set<int>) {
    forall b :: b in free ==> b in mem && b + mem[b].size !in free
  }

  /** Every unit from the header on belongs to this block. */
  ghost predicate Owns(mem: Memory, owner: map<int, int>, b: int) {
    && b in mem && mem[b].size >= 1
    && forall u :: b <= u < b + mem[b].size ==> u in owner && owner[u] == b
  }

  /** `owner` maps every unit obtained from the kernel to the block it lies in. */
  ghost predicate Tiled(mem: Memory, base: int, blocks: set<int>, owner: map<int, int>) {
    && (forall b :: b in blocks ==> Owns(mem, owner, b))
    && (forall u :: u in owner <==> u in mem && u != base)
    && (forall u :: u in owner ==> u > base && owner[u] in blocks && owner[u] <= u < owner[u] + mem[owner[u]].size)
  }

  /** Distinct blocks do not overlap. */
  lemma BlocksApart(mem: Memory, base: int, blocks: set<int>, owner: map<int, int>, b: int, c: int)
    requires Tiled(mem, base, blocks, owner) && b in blocks && c in blocks && b < c
    ensures b in mem && b + mem[b].size <= c
  {
    assert Owns(mem, owner, b) && Owns(mem, owner, c);
    assert owner[c] == c;
  }

  predicate Holds(mem: Memory, b: int, u: int) {
    b in mem && b <= u < b + mem[b].size
  }

  /** Every unit obtained from the kernel lies in exactly one block, free or live. */
  lemma TilesExactly(mem: Memory, base: int, ring: seq<int>, live: set<int>, owner: map<int, int>, u: int)
    requires Inv(mem, base, ring, live, owner) && u in mem && u != base
    ensures exists b :: b in live + FreeSet(ring) && Holds(mem, b, u)
    ensures forall b, c ::
              b in live + FreeSet(ring) && c in live + FreeSet(ring) && Holds(mem, b, u) && Holds(mem, c, u) ==> b == c
  {
    hide RingOk, Coalesced, FreeSet;
    var blocks := live + FreeSet(ring);
    assert owner[u] in blocks && Owns(mem, owner, owner[u]) && Holds(mem, owner[u], u);
    forall b | b in blocks && Holds(mem, b, u) ensures owner[u] == b {
      assert Owns(mem, owner, b);
    }
  }

  /** Tiling looks only at the sizes of blocks. */
  lemma TiledBySizes(mem: Memory, mem': Memory, base: int, blocks: set<int>, owner: map<int, int>)
    requires Tiled(mem, base, blocks, owner) && mem'.Keys == mem.Keys
    requires forall b :: b in blocks && b in mem ==> mem'[b].size == mem[b].size
    ensures Tiled(mem', base, blocks, owner)
  {
    forall b | b in blocks ensures Owns(mem', owner, b) {
      assert Owns(mem, owner, b);
    }
  }

  /** The position after which a block at bp belongs: the last member below bp. */
  ghost predicate Slot(ring: seq<int>, bp: int, k: nat) {
    k < |ring| && ring[k] < bp && (k + 1 < |ring| ==> bp < ring[k + 1])
  }

  // Freeing a block is one insertion and up to two merges of neighbours.

  ghost predicate Inserted(ring: seq<int>, ring': seq<int>, bp: int, k: nat) {
    && k < |ring| && |ring'| == |ring| + 1
    && forall i {:trigger ring'[i]} ::
         0 <= i < |ring'| ==> ring'[i] == if i <= k then ring[i] else if i == k + 1 then bp else ring[i - 1]
  }

  function InsertMem(mem: Memory, ring: seq<int>, bp: int, k: nat): Memory
    requires k < |ring| && ring[k] in mem && bp in mem
  {
    mem[bp := Header(Succ(ring, k), mem[bp].size)][ring[k] := Header(bp, mem[ring[k]].size)]
  }

  lemma InsertAscends(ring: seq<int>, bp: int, k: nat, ring': seq<int>)
    requires Ascending(ring) && Slot(ring, bp, k) && Inserted(ring, ring', bp, k)
    ensures Ascending(ring')
    ensures |ring| >= 1 ==> FreeSet(ring') == FreeSet(ring) + {bp}
  {
    forall i, j | 0 <= i < j < |ring'| ensures ring'[i] < ring'[j] {
      assert j > k + 1 ==> ring[k + 1] <= ring[j - 1];
      assert i < k ==> ring[i] < ring[k];
    }
    forall b | b in FreeSet(ring) ensures b in FreeSet(ring') {
      var i :| 1 <= i < |ring| && ring[i] == b;
      assert ring'[if i <= k then i else i + 1] == b;
    }
    assert ring'[k + 1] == bp;
  }

  ghost predicate Removed(ring: seq<int>, ring': seq<int>, k: nat) {
    && k < |ring| && |ring'| == |ring| - 1
    && forall j {:trigger ring'[j]} :: 0 <= j < |ring'| ==> ring'[j] == if j < k then ring[j] else ring[j + 1]
  }

  lemma RemoveAscends(ring: seq<int>, k: nat, ring': seq<int>)
    requires Ascending(ring) && 0 < k < |ring| && Removed(ring, ring', k)
    ensures Ascending(ring')
    ensures FreeSet(ring') == FreeSet(ring) - {ring[k]}
  {
    forall b | b in FreeSet(ring) && b != ring[k] ensures b in FreeSet(ring') {
      var j :| 1 <= j < |ring| && ring[j] == b;
      assert ring'[if j < k then j else j - 1] == b;
    }
  }

  lemma InsertSizes(mem: Memory, ring: seq<int>, bp: int, k: nat)
    requires k < |ring| && ring[k] in mem && bp in mem
    ensures forall u :: u in mem ==>
              u in InsertMem(mem, ring, bp, k) && InsertMem(mem, ring, bp, k)[u].size == mem[u].size
  {
    hide Succ;
  }

  lemma InsertKeepsRing(mem: Memory, base: int, ring: seq<int>, bp: int, k: nat, ring': seq<int>)
    requires RingOk(mem, base, ring) && Slot(ring, bp, k) && bp in mem && Inserted(ring, ring', bp, k)
    requires ring[k] + mem[ring[k]].size <= bp && (k + 1 < |ring| ==> bp + mem[bp].size <= ring[k + 1])
    ensures RingOk(InsertMem(mem, ring, bp, k), base, ring')
    ensures FreeSet(ring') == FreeSet(ring) + {bp}
  {
    hide Ascending, FreeSet, InsertMem, Succ, Slot;
    var m' := InsertMem(mem, ring, bp, k);
    InsertAscends(ring, bp, k, ring');
    InsertSizes(mem, ring, bp, k);
    forall i | 0 <= i < |ring'|
      ensures ring'[i] in m' && m'[ring'[i]].ptr == Succ(ring', i)
      ensures i + 1 < |ring'| ==> ring'[i] + m'[ring'[i]].size <= ring'[i + 1]
    {
      InsertKeepsLink(mem, base, ring, bp, k, ring', i);
    }
  }

  lemma InsertKeepsLink(mem: Memory, base: int, ring: seq<int>, bp: int, k: nat, ring': seq<int>, i: nat)
    requires RingOk(mem, base, ring) && Slot(ring, bp, k) && bp in mem && Inserted(ring, ring', bp, k) && i < |ring'|
    requires ring[k] + mem[ring[k]].size <= bp && (k + 1 < |ring| ==> bp + mem[bp].size <= ring[k + 1])
    ensures var m' := InsertMem(mem, ring, bp, k);
            && ring'[i] in m' && m'[ring'[i]].ptr == Succ(ring', i)
            && (i + 1 < |ring'| ==> ring'[i] + m'[ring'[i]].size <= ring'[i + 1])
  {
    if i < k {
      assert ring'[i] == ring[i] && ring'[i + 1] == ring[i + 1];
      assert ring[i] < ring[k] < bp && mem[ring[i]].ptr == ring[i + 1];
    } else if i == k {
      assert ring'[k] == ring[k] && ring'[k + 1] == bp;
    } else if i == k + 1 {
      assert ring'[k + 1] == bp && Succ(ring', k + 1) == Succ(ring, k);
    } else {
      assert ring'[i] == ring[i - 1] && Succ(ring', i) == Succ(ring, i - 1);
      assert ring[i - 1] >= ring[k + 1] > bp && mem[ring[i - 1]].ptr == Succ(ring, i - 1);
    }
  }

  function MergeMem(mem: Memory, ring: seq<int>, i: nat): Memory
    requires i + 1 < |ring| && ring[i] in mem && ring[i + 1] in mem
  {
    mem[ring[i] := Header(mem[ring[i + 1]].ptr, mem[ring[i]].size + mem[ring[i + 1]].size)]
  }

  /** Bypassing member i: its predecessor takes over its link and does not grow past the next member. */
  ghost predicate Bypassed(mem: Memory, mem': Memory, ring: seq<int>, i: nat) {
    && 0 < i < |ring| && (forall j :: 0 <= j < |ring| ==> ring[j] in mem && ring[j] in mem')
    && (forall j :: 0 <= j < |ring| && j != i - 1 && j != i ==> mem'[ring[j]] == mem[ring[j]])
    && mem'[ring[i - 1]].ptr == Succ(ring, i)
    && (i + 1 < |ring| ==> ring[i - 1] + mem'[ring[i - 1]].size <= ring[i + 1])
    && (i == 1 ==> mem'[ring[0]].size == 0)
  }

  lemma BypassKeepsRing(mem: Memory, mem': Memory, base: int, ring: seq<int>, i: nat, ring': seq<int>)
    requires RingOk(mem, base, ring) && Bypassed(mem, mem', ring, i) && Removed(ring, ring', i)
    ensures RingOk(mem', base, ring') && FreeSet(ring') == FreeSet(ring) - {ring[i]}
  {
    RemoveAscends(ring, i, ring');
    forall j | 0 <= j < |ring'|
      ensures ring'[j] in mem' && mem'[ring'[j]].ptr == Succ(ring', j)
      ensures j + 1 < |ring'| ==> ring'[j] + mem'[ring'[j]].size <= ring'[j + 1]
    {
      BypassKeepsLink(mem, mem', base, ring, i, ring', j);
    }
  }

  lemma BypassKeepsLink(mem: Memory, mem': Memory, base: int, ring: seq<int>, i: nat, ring': seq<int>, j: nat)
    requires RingOk(mem, base, ring) && Bypassed(mem, mem', ring, i) && Removed(ring, ring', i) && j < |ring'|
    ensures ring'[j] in mem' && mem'[ring'[j]].ptr == Succ(ring', j)
    ensures j + 1 < |ring'| ==> ring'[j] + mem'[ring'[j]].size <= ring'[j + 1]
  {
    if j + 1 < i {
      assert mem[ring[j]].ptr == ring[j + 1] == ring'[j + 1];
    } else if j >= i {
      assert mem[ring[j + 1]].ptr == Succ(ring, j + 1) == Succ(ring', j);
    }
  }

  /** Uniting two free blocks that touch keeps the ring. */
  lemma MergeKeepsRing(mem: Memory, base: int, ring: seq<int>, i: nat, ring': seq<int>)
    requires RingOk(mem, base, ring) && 0 < i && i + 1 < |ring| && Removed(ring, ring', i + 1)
    requires ring[i] + mem[ring[i]].size == ring[i + 1]
    ensures RingOk(MergeMem(mem, ring, i), base, ring') && FreeSet(ring') == FreeSet(ring) - {ring[i + 1]}
  {
    MergeBypasses(mem, base, ring, i);
    BypassKeepsRing(mem, MergeMem(mem, ring, i), base, ring, i + 1, ring');
  }

  lemma MergeBypasses(mem: Memory, base: int, ring: seq<int>, i: nat)
    requires RingOk(mem, base, ring) && 0 < i && i + 1 < |ring| && ring[i] + mem[ring[i]].size == ring[i + 1]
    ensures Bypassed(mem, MergeMem(mem, ring, i), ring, i + 1)
  {
    assert mem[ring[i + 1]].ptr == Succ(ring, i + 1);
  }

  /** `mem'` and `owner'` give block b's units to block a. */
  ghost predicate Absorbed(mem: Memory, owner: map<int, int>, mem': Memory, owner': map<int, int>, a: int, b: int) {
    && a in mem && b in mem && a + mem[a].size == b
    && mem'.Keys == mem.Keys && mem'[a].size == mem[a].size + mem[b].size
    && (forall c :: c in mem && c != a ==> mem'[c].size == mem[c].size)
    && owner'.Keys == owner.Keys
    && (forall u :: u in owner ==> owner'[u] == if owner[u] == b then a else owner[u])
  }

  lemma MergeKeepsOwner(mem: Memory, base: int, blocks: set<int>, owner: map<int, int>,
                        mem': Memory, owner': map<int, int>, a: int, b: int, u: int)
    requires Tiled(mem, base, blocks, owner) && a in blocks && b in blocks && Absorbed(mem, owner, mem', owner', a, b)
    requires u in owner
    ensures u > base && owner'[u] in blocks - {b} && owner'[u] in mem
            && owner'[u] <= u < owner'[u] + mem'[owner'[u]].size
  {
    assert Owns(mem, owner, b) && Owns(mem, owner, a);
    assert owner[u] in blocks && owner[u] in mem;
  }

  lemma MergeKeepsOwns(mem: Memory, base: int, blocks: set<int>, owner: map<int, int>,
                       mem': Memory, owner': map<int, int>, a: int, b: int, c: int)
    requires Tiled(mem, base, blocks, owner) && a in blocks && b in blocks && Absorbed(mem, owner, mem', owner', a, b)
    requires c in blocks && c != b
    ensures Owns(mem', owner', c)
  {
    assert Owns(mem, owner, a) && Owns(mem, owner, b) && Owns(mem, owner, c);
  }

  /** Uniting two blocks that touch keeps the tiling. */
  lemma MergeKeepsTiling(mem: Memory, base: int, blocks: set<int>, owner: map<int, int>,
                         mem': Memory, owner': map<int, int>, a: int, b: int)
    requires Tiled(mem, base, blocks, owner) && a in blocks && b in blocks && Absorbed(mem, owner, mem', owner', a, b)
    ensures Tiled(mem', base, blocks - {b}, owner')
  {
    forall c | c in blocks - {b} ensures Owns(mem', owner', c) {
      MergeKeepsOwns(mem, base, blocks, owner, mem', owner', a, b, c);
    }
    forall u | u in owner'
      ensures u > base && owner'[u] in blocks - {b} && owner'[u] <= u < owner'[u] + mem'[owner'[u]].size
    {
      MergeKeepsOwner(mem, base, blocks, owner, mem', owner', a, b, u);
    }
  }

  /** The allocator's invariant: one ascending ring, no two free blocks touching, and free and
      live blocks tiling all memory obtained from the kernel. */
  ghost predicate Inv(mem: Memory, base: int, ring: seq<int>, live: set<int>, owner: map<int, int>) {
    && RingOk(mem, base, ring)
    && live !! FreeSet(ring)
    && Tiled(mem, base, live + FreeSet(ring), owner)
    && Coalesced(mem, FreeSet(ring))
  }

  lemma InsertExists(ring: seq<int>, bp: int, k: nat) returns (ring': seq<int>)
    requires k < |ring|
    ensures Inserted(ring, ring', bp, k)
  {
    ring' := ring[..k + 1] + [bp] + ring[k + 1..];
  }

  lemma RemoveExists(ring: seq<int>, k: nat) returns (ring': seq<int>)
    requires k < |ring|
    ensures Removed(ring, ring', k)
  {
    ring' := ring[..k] + ring[k + 1..];
  }

  lemma AbsorbExists(mem: Memory, ring: seq<int>, owner: map<int, int>, i: nat) returns (owner': map<int, int>)
    requires i + 1 < |ring| && ring[i] in mem && ring[i + 1] in mem && ring[i] + mem[ring[i]].size == ring[i + 1]
    ensures Absorbed(mem, owner, MergeMem(mem, ring, i), owner', ring[i], ring[i + 1])
  {
    owner' := map u | u in owner :: if owner[u] == ring[i + 1] then ring[i] else owner[u];
  }

  lemma InsertMemSizes(mem: Memory, ring: seq<int>, bp: int, k: nat)
    requires k < |ring| && ring[k] in mem && bp in mem
    ensures InsertMem(mem, ring, bp, k).Keys == mem.Keys
    ensures forall b :: b in mem ==> InsertMem(mem, ring, bp, k)[b].size == mem[b].size
  {
  }

  lemma UnionMinus(live: set<int>, free: set<int>, x: int)
    requires x !in live
    ensures live + (free - {x}) == (live + free) - {x}
  {
  }

  /** The insertion stage: the block joins the ring beside its neighbours. */
  lemma FreeInserts(mem: Memory, base: int, ring: seq<int>, live: set<int>, owner: map<int, int>, bp: int, k: nat)
    returns (ring': seq<int>)
    requires RingOk(mem, base, ring) && live !! FreeSet(ring) && Tiled(mem, base, live + FreeSet(ring), owner)
    requires bp in live && Slot(ring, bp, k)
    ensures bp in mem && Inserted(ring, ring', bp, k)
    ensures RingOk(InsertMem(mem, ring, bp, k), base, ring') && FreeSet(ring') == FreeSet(ring) + {bp}
    ensures Tiled(InsertMem(mem, ring, bp, k), base, live + FreeSet(ring), owner)
  {
    var blocks := live + FreeSet(ring);
    assert Owns(mem, owner, bp);
    if k > 0 {
      assert ring[k] in FreeSet(ring);
      BlocksApart(mem, base, blocks, owner, ring[k], bp);
    }
    if k + 1 < |ring| {
      assert ring[k + 1] in FreeSet(ring);
      BlocksApart(mem, base, blocks, owner, bp, ring[k + 1]);
    }
    ring' := InsertExists(ring, bp, k);
    InsertKeepsRing(mem, base, ring, bp, k, ring');
    InsertMemSizes(mem, ring, bp, k);
    TiledBySizes(mem, InsertMem(mem, ring, bp, k), base, blocks, owner);
  }

  /** The merge stage at ring position i. */
  lemma FreeMerges(mem: Memory, base: int, ring: seq<int>, live: set<int>, owner: map<int, int>, i: nat)
    returns (ring': seq<int>, owner': map<int, int>)
    requires RingOk(mem, base, ring) && live !! FreeSet(ring) && Tiled(mem, base, live + FreeSet(ring), owner)
    requires 0 < i && i + 1 < |ring| && ring[i] + mem[ring[i]].size == ring[i + 1]
    ensures Removed(ring, ring', i + 1)
    ensures RingOk(MergeMem(mem, ring, i), base, ring') && FreeSet(ring') == FreeSet(ring) - {ring[i + 1]}
    ensures Tiled(MergeMem(mem, ring, i), base, live + FreeSet(ring'), owner')
  {
    ring' := RemoveExists(ring, i + 1);
    owner' := AbsorbExists(mem, ring, owner, i);
    MergeKeepsRing(mem, base, ring, i, ring');
    assert ring[i] in FreeSet(ring) && ring[i + 1] in FreeSet(ring);
    MergeKeepsTiling(mem, base, live + FreeSet(ring), owner, MergeMem(mem, ring, i), owner', ring[i], ring[i + 1]);
    UnionMinus(live, FreeSet(ring), ring[i + 1]);
  }

  /** The header writes of `free` between the members p and nx. */
  function FreedMem(mem: Memory, p: int, nx: int, bp: int): Memory
    requires p in mem && nx in mem && bp in mem
  {
    var h := if bp + mem[bp].size == nx then Header(mem[nx].ptr, mem[bp].size + mem[nx].size)
             else Header(nx, mem[bp].size);
    var m := mem[bp := h];
    if p + m[p].size == bp then m[p := Header(h.ptr, m[p].size + h.size)] else m[p := Header(bp, m[p].size)]
  }

  /** The members left in the ring when bp is freed between p and nx. */
  function FreedSet(mem: Memory, free: set<int>, p: int, nx: int, bp: int): set<int>
    requires p in mem && nx in mem && bp in mem
  {
    free + {bp} - (if bp + mem[bp].size == nx then {nx} else {}) - (if p + mem[p].size == bp then {bp} else {})
  }

  /** Only the two neighbours can touch the freed block, and merging with them leaves no two touching. */
  lemma FreedCoalesced(mem: Memory, free: set<int>, p: int, nx: int, bp: int)
    requires Coalesced(mem, free) && p in mem && nx in mem && bp in mem && p < bp && mem[bp].size >= 1
    requires p in free || mem[p].size == 0
    requires if nx > bp then nx in free && bp + mem[bp].size <= nx else nx !in free
    requires forall b :: b in free ==> mem[b].size >= 1 && (b == p || b + mem[b].size < bp || (nx > bp && b >= nx))
    ensures Coalesced(FreedMem(mem, p, nx, bp), FreedSet(mem, free, p, nx, bp))
  {
  }

  /** `free`'s writes with the left merge left out. */
  function RightMem(mem: Memory, p: int, nx: int, bp: int): Memory
    requires p in mem && nx in mem && bp in mem
  {
    mem[bp := if bp + mem[bp].size == nx then Header(mem[nx].ptr, mem[bp].size + mem[nx].size)
              else Header(nx, mem[bp].size)][p := Header(bp, mem[p].size)]
  }

  /** The staged insertion and merges write what `free` writes. */
  lemma RightStage(mem: Memory, ring: seq<int>, r1: seq<int>, bp: int, k: nat)
    requires k + 1 < |ring| && ring[k] in mem && bp in mem && ring[k + 1] in mem && ring[k] < bp < ring[k + 1]
    requires Inserted(ring, r1, bp, k) && bp + mem[bp].size == ring[k + 1]
    ensures r1[k + 1] == bp && r1[k + 2] == ring[k + 1]
    ensures MergeMem(InsertMem(mem, ring, bp, k), r1, k + 1) == RightMem(mem, ring[k], ring[k + 1], bp)
  {
    assert r1[k + 1] == bp && r1[k + 2] == ring[k + 1];
  }

  lemma LeftStage(mem: Memory, p: int, nx: int, bp: int, r2: seq<int>, k: nat)
    requires p in mem && nx in mem && bp in mem && p < bp && nx != bp
    requires k + 1 < |r2| && r2[k] == p && r2[k + 1] == bp
    ensures FreedMem(mem, p, nx, bp)
         == if p + mem[p].size == bp then MergeMem(RightMem(mem, p, nx, bp), r2, k) else RightMem(mem, p, nx, bp)
  {
  }

  /** A free block is the slot's own, ends before the freed one, or starts at the next member or later. */
  lemma FreeBesideSlot(mem: Memory, base: int, ring: seq<int>, bp: int, k: nat, i: nat)
    requires RingOk(mem, base, ring) && Slot(ring, bp, k) && 1 <= i < |ring|
    ensures i < k ==> ring[i] + mem[ring[i]].size < bp
    ensures i > k ==> k + 1 < |ring| && ring[i] >= ring[k + 1] > bp
  {
    if i < k {
      assert mem[ring[i]].ptr == ring[i + 1];
      assert i + 1 == k || ring[i + 1] < ring[k];
    } else if i > k + 1 {
      assert ring[i] > ring[k + 1];
    }
  }

  /** How a live block lies among the free ones around its slot. */
  lemma SlotFacts(mem: Memory, base: int, ring: seq<int>, live: set<int>, owner: map<int, int>, bp: int, k: nat)
    requires Inv(mem, base, ring, live, owner) && bp in live && Slot(ring, bp, k)
    ensures bp in mem && mem[bp].size >= 1 && ring[k] in mem && Succ(ring, k) in mem && Succ(ring, k) != bp
    ensures if k == 0 then mem[ring[k]].size == 0 else ring[k] in FreeSet(ring)
    ensures if Succ(ring, k) > bp then k + 1 < |ring| && Succ(ring, k) in FreeSet(ring)
            && bp + mem[bp].size <= Succ(ring, k)
            else k + 1 == |ring| && Succ(ring, k) == base && base !in FreeSet(ring)
  {
    assert Owns(mem, owner, bp);
    if k + 1 < |ring| {
      assert ring[k + 1] in FreeSet(ring);
      BlocksApart(mem, base, live + FreeSet(ring), owner, bp, ring[k + 1]);
    }
  }

  lemma NoneElseTouches(mem: Memory, base: int, ring: seq<int>, live: set<int>, owner: map<int, int>, bp: int, k: nat)
    requires Inv(mem, base, ring, live, owner) && bp in live && Slot(ring, bp, k)
    ensures forall b :: b in FreeSet(ring) ==>
              && b in mem && mem[b].size >= 1
              && (b == ring[k] || b + mem[b].size < bp || (Succ(ring, k) > bp && b >= Succ(ring, k)))
  {
    hide RingOk, Coalesced;
    forall b | b in FreeSet(ring)
      ensures b in mem && mem[b].size >= 1
      ensures b == ring[k] || b + mem[b].size < bp || (Succ(ring, k) > bp && b >= Succ(ring, k))
    {
      var i :| 1 <= i < |ring| && ring[i] == b;
      assert Owns(mem, owner, b);
      FreeBesideSlot(mem, base, ring, bp, k, i);
    }
  }

  /** Insertion, then the merge with the following member if they touch. */
  lemma FreeRight(mem: Memory, base: int, ring: seq<int>, live: set<int>, owner: map<int, int>, bp: int, k: nat)
    returns (m2: Memory, r2: seq<int>, o2: map<int, int>)
    requires Inv(mem, base, ring, live, owner) && bp in live && Slot(ring, bp, k)
    ensures bp in mem && Succ(ring, k) in mem && ring[k] in mem
    ensures m2 == RightMem(mem, ring[k], Succ(ring, k), bp)
    ensures k + 1 < |r2| && r2[k] == ring[k] && r2[k + 1] == bp
    ensures RingOk(m2, base, r2) && (live - {bp}) !! FreeSet(r2) && Tiled(m2, base, (live - {bp}) + FreeSet(r2), o2)
    ensures FreeSet(r2) == FreeSet(ring) + {bp} - (if bp + mem[bp].size == Succ(ring, k) then {Succ(ring, k)} else {})
  {
    hide RingOk, Tiled, FreeSet, Coalesced;
    SlotFacts(mem, base, ring, live, owner, bp, k);
    var r1 := FreeInserts(mem, base, ring, live, owner, bp, k);
    m2, r2, o2 := InsertMem(mem, ring, bp, k), r1, owner;
    UnionMove(live, FreeSet(ring), bp);
    assert r1[k] == ring[k] && r1[k + 1] == bp;
    if bp + mem[bp].size == Succ(ring, k) {
      RightStage(mem, ring, r1, bp, k);
      var m1 := m2;
      InsertMemSizes(mem, ring, bp, k);
      r2, o2 := FreeMerges(m1, base, r1, live - {bp}, owner, k + 1);
      m2 := MergeMem(m1, r1, k + 1);
    }
  }

  lemma UnionMove(live: set<int>, free: set<int>, x: int)
    requires x in live
    ensures (live - {x}) + (free + {x}) == live + free
  {
  }

  /** `free` keeps the invariant and moves exactly one block from live to free. */
  lemma FreeKeepsInv(mem: Memory, base: int, ring: seq<int>, live: set<int>, owner: map<int, int>, bp: int, k: nat)
    returns (ring': seq<int>, owner': map<int, int>)
    requires Inv(mem, base, ring, live, owner) && bp in live && Slot(ring, bp, k)
    ensures bp in mem && Succ(ring, k) in mem
    ensures Inv(FreedMem(mem, ring[k], Succ(ring, k), bp), base, ring', live - {bp}, owner')
    ensures k < |ring'| && ring'[k] == ring[k]
    ensures FreeSet(ring') == FreedSet(mem, FreeSet(ring), ring[k], Succ(ring, k), bp)
  {
    hide RingOk, Tiled, Coalesced, FreeSet;
    var p, nx := ring[k], Succ(ring, k);
    SlotFacts(mem, base, ring, live, owner, bp, k);
    var m2, r2, o2 := FreeRight(mem, base, ring, live, owner, bp, k);
    LeftStage(mem, p, nx, bp, r2, k);
    ring', owner' := r2, o2;
    if p + mem[p].size == bp {
      ring', owner' := FreeMerges(m2, base, r2, live - {bp}, o2, k);
    }
    NoneElseTouches(mem, base, ring, live, owner, bp, k);
    FreedCoalesced(mem, FreeSet(ring), p, nx, bp);
    assert FreeSet(ring') == FreedSet(mem, FreeSet(ring), p, nx, bp);
  }

  lemma SlotSearch(ring: seq<int>, bp: int) returns (k: nat)
    requires |ring| >= 1 && ring[0] < bp && (forall i :: 0 <= i < |ring| ==> ring[i] != bp)
    ensures Slot(ring, bp, k)
  {
    k := 0;
    while k + 1 < |ring| && ring[k + 1] < bp
      invariant k < |ring| && ring[k] < bp
    {
      k := k + 1;
    }
  }

  /** A live block is no ring member and lies above `base`. */
  lemma LiveOutsideRing(mem: Memory, base: int, ring: seq<int>, live: set<int>, owner: map<int, int>, bp: int)
    requires Inv(mem, base, ring, live, owner) && bp in live
    ensures bp in mem && mem[bp].size >= 1 && bp > base && |ring| >= 1 && ring[0] == base
    ensures forall i :: 0 <= i < |ring| ==> ring[i] != bp
  {
    hide RingOk, Coalesced;
    LiveAboveBase(mem, base, live + FreeSet(ring), owner, bp);
    RingStart(mem, base, ring);
    forall i | 0 <= i < |ring| ensures ring[i] != bp {
      assert i > 0 ==> ring[i] in FreeSet(ring);
    }
  }

  lemma LiveAboveBase(mem: Memory, base: int, blocks: set<int>, owner: map<int, int>, bp: int)
    requires Tiled(mem, base, blocks, owner) && bp in blocks
    ensures bp in mem && mem[bp].size >= 1 && bp > base && bp in owner && owner[bp] == bp
  {
    assert Owns(mem, owner, bp) && owner[bp] == bp;
  }

  lemma RingStart(mem: Memory, base: int, ring: seq<int>)
    requires RingOk(mem, base, ring)
    ensures |ring| >= 1 && ring[0] == base && base in mem && mem[base].size == 0
  {
  }

  /** The test that ends the search loop of `free` holds at the slot and nowhere else. */
  lemma SearchStopsAtSlot(mem: Memory, base: int, ring: seq<int>, bp: int, k: nat, i: nat)
    requires RingOk(mem, base, ring) && Slot(ring, bp, k) && i < |ring|
    ensures ring[i] in mem && ring[i] >= base && mem[ring[i]].ptr == Succ(ring, i)
    ensures i == k <==> var p, nx := ring[i], mem[ring[i]].ptr;
                        (bp > p && bp < nx) || (p >= nx && (bp > p || bp < nx))
  {
    assert ring[0] <= ring[i];
    if i < k {
      assert ring[i] < ring[i + 1] <= ring[k];
    } else if i > k {
      assert ring[k + 1] <= ring[i];
      assert i + 1 < |ring| ==> ring[i] < ring[i + 1];
      assert ring[0] <= ring[k];
    }
  }

  lemma SearchFacts(mem: Memory, base: int, ring: seq<int>, live: set<int>, owner: map<int, int>, bp: int, k: nat)
    requires Inv(mem, base, ring, live, owner) && Slot(ring, bp, k)
    ensures forall i :: 0 <= i < |ring| ==>
              && ring[i] in mem && ring[i] >= base && mem[ring[i]].ptr == Succ(ring, i)
              && (i == k <==> var p, nx := ring[i], mem[ring[i]].ptr;
                              (bp > p && bp < nx) || (p >= nx && (bp > p || bp < nx)))
  {
    hide RingOk, Tiled, Coalesced, FreeSet;
    forall i | 0 <= i < |ring|
      ensures ring[i] in mem && ring[i] >= base && mem[ring[i]].ptr == Succ(ring, i)
      ensures i == k <==> var p, nx := ring[i], mem[ring[i]].ptr;
                          (bp > p && bp < nx) || (p >= nx && (bp > p || bp < nx))
    {
      SearchStopsAtSlot(mem, base, ring, bp, k, i);
    }
  }

  /** The header and the payload of every block in `live` hold what they held. */
  ghost predicate Untouched(mem: Memory, mem': Memory, live: set<int>) {
    forall b, u :: b in live && b in mem && b <= u < b + mem[b].size ==> u in mem && u in mem' && mem'[u] == mem[u]
  }

  /** `free` writes only the freed header and the slot's header, neither inside another live block. */
  lemma FreeFrame(mem: Memory, base: int, ring: seq<int>, live: set<int>, owner: map<int, int>, bp: int, k: nat)
    requires Inv(mem, base, ring, live, owner) && bp in live && Slot(ring, bp, k)
    ensures bp in mem && Succ(ring, k) in mem
    ensures Untouched(mem, FreedMem(mem, ring[k], Succ(ring, k), bp), live - {bp})
  {
    hide RingOk, Coalesced, Tiled, FreeSet;
    SlotFacts(mem, base, ring, live, owner, bp, k);
    FreedWrites(mem, ring[k], Succ(ring, k), bp);
    RingStart(mem, base, ring);
    forall b, u | b in live - {bp} && b in mem && b <= u < b + mem[b].size ensures u in mem && u != bp && u != ring[k] {
      LiveUnit(mem, base, live + FreeSet(ring), owner, b, u);
      LiveAboveBase(mem, base, live + FreeSet(ring), owner, bp);
      if k > 0 {
        LiveAboveBase(mem, base, live + FreeSet(ring), owner, ring[k]);
      }
    }
  }

  lemma LiveUnit(mem: Memory, base: int, blocks: set<int>, owner: map<int, int>, b: int, u: int)
    requires Tiled(mem, base, blocks, owner) && b in blocks && b in mem && b <= u < b + mem[b].size
    ensures u in mem && u in owner && owner[u] == b && u > base
  {
    assert Owns(mem, owner, b);
  }

  lemma FreedWrites(mem: Memory, p: int, nx: int, bp: int)
    requires p in mem && nx in mem && bp in mem
    ensures FreedMem(mem, p, nx, bp).Keys == mem.Keys
    ensures forall u :: u in mem && u != p && u != bp ==> FreedMem(mem, p, nx, bp)[u] == mem[u]
  {
  }

  /** Where the freed units went: into the slot's own block or into the member after it. */
  lemma FreedHolds(mem: Memory, p: int, nx: int, bp: int)
    requires p in mem && nx in mem && bp in mem && p < bp && nx != bp && mem[nx].size >= 0 && mem[p].size >= 0
    ensures var m := FreedMem(mem, p, nx, bp);
            m[p].size >= mem[bp].size || (m[p].ptr == bp && m[bp].size >= mem[bp].size)
  {
  }

  /** All that freeing the live block bp at its slot k does. */
  lemma FreeEffect(mem: Memory, base: int, ring: seq<int>, live: set<int>, owner: map<int, int>, bp: int, k: nat)
    returns (ring': seq<int>, owner': map<int, int>)
    requires Inv(mem, base, ring, live, owner) && bp in live && Slot(ring, bp, k)
    ensures ring[k] in mem && bp in mem && Succ(ring, k) in mem && mem[ring[k]].ptr == Succ(ring, k)
    ensures ring[k] >= base && ring[k] != bp && Succ(ring, k) != bp && ring[k] in ring'
    ensures var m := FreedMem(mem, ring[k], Succ(ring, k), bp);
            && Inv(m, base, ring', live - {bp}, owner')
            && m.Keys == mem.Keys && Untouched(mem, m, live - {bp})
            && (m[ring[k]].size >= mem[bp].size || (m[ring[k]].ptr == bp && m[bp].size >= mem[bp].size))
            && m[ring[k]].ptr in m
  {
    hide RingOk, Tiled, Coalesced, FreeSet, FreedMem, Untouched, FreedSet;
    SlotFacts(mem, base, ring, live, owner, bp, k);
    ring', owner' := FreeKeepsInv(mem, base, ring, live, owner, bp, k);
    FreeFrame(mem, base, ring, live, owner, bp, k);
    FreedWrites(mem, ring[k], Succ(ring, k), bp);
    SearchFacts(mem, base, ring, live, owner, bp, k);
    SizesNonNegative(mem, base, ring, live, owner, k);
    FreedHolds(mem, ring[k], Succ(ring, k), bp);
    var m := FreedMem(mem, ring[k], Succ(ring, k), bp);
    LinkInMem(m, base, ring', k);
  }

  lemma SizesNonNegative(mem: Memory, base: int, ring: seq<int>, live: set<int>, owner: map<int, int>, k: nat)
    requires Inv(mem, base, ring, live, owner) && k < |ring|
    ensures ring[k] in mem && mem[ring[k]].size >= 0 && Succ(ring, k) in mem && mem[Succ(ring, k)].size >= 0
  {
    hide Coalesced;
    forall i | 0 < i < |ring| ensures mem[ring[i]].size >= 1 {
      assert ring[i] in FreeSet(ring) && Owns(mem, owner, ring[i]);
    }
  }

  lemma LinkInMem(mem: Memory, base: int, ring: seq<int>, k: nat)
    requires RingOk(mem, base, ring) && k < |ring|
    ensures ring[k] in mem && mem[ring[k]].ptr in mem
  {
    assert mem[ring[k]].ptr == Succ(ring, k);
  }

  // ---------------------------------------------------------------- taking and growing

  lemma FreeMember(mem: Memory, base: int, ring: seq<int>, i: nat)
    requires RingOk(mem, base, ring) && 0 < i < |ring|
    ensures ring[i - 1] in mem && ring[i] in mem && ring[i - 1] < ring[i] && ring[i] in FreeSet(ring)
  {
  }

  function BypassMem(mem: Memory, p: int, prevp: int): Memory
    requires p in mem && prevp in mem
  {
    mem[prevp := Header(mem[p].ptr, mem[prevp].size)]
  }

  /** Handing out a whole free block: its predecessor bypasses it. */
  lemma TakeWholeKeepsInv(mem: Memory, base: int, ring: seq<int>, live: set<int>, owner: map<int, int>, i: nat)
    returns (ring': seq<int>)
    requires Inv(mem, base, ring, live, owner) && 0 < i < |ring|
    ensures ring[i - 1] in mem && ring[i] in mem
    ensures Inv(BypassMem(mem, ring[i], ring[i - 1]), base, ring', live + {ring[i]}, owner)
    ensures i - 1 < |ring'| && ring'[i - 1] == ring[i - 1]
  {
    hide Tiled, RingOk, FreeSet, Bypassed;
    FreeMember(mem, base, ring, i);
    var mem' := BypassMem(mem, ring[i], ring[i - 1]);
    ring' := RemoveExists(ring, i);
    TakeBypasses(mem, base, ring, i);
    BypassKeepsRing(mem, mem', base, ring, i, ring');
    UnionMove(FreeSet(ring), live, ring[i]);
    TiledBySizes(mem, mem', base, live + FreeSet(ring), owner);
    assert (live + {ring[i]}) + FreeSet(ring') == live + FreeSet(ring);
  }

  lemma TakeBypasses(mem: Memory, base: int, ring: seq<int>, i: nat)
    requires RingOk(mem, base, ring) && 0 < i < |ring|
    ensures ring[i - 1] in mem && ring[i] in mem
    ensures Bypassed(mem, BypassMem(mem, ring[i], ring[i - 1]), ring, i)
  {
    assert mem[ring[i]].ptr == Succ(ring, i);
    assert mem[ring[i - 1]].ptr == ring[i];
  }

  /** The header writes of a tail split: p keeps the front, q becomes a block of n units. */
  function SplitMem(mem: Memory, p: int, n: int): Memory
    requires p in mem && p + mem[p].size - n in mem
  {
    var q := p + mem[p].size - n;
    mem[p := Header(mem[p].ptr, mem[p].size - n)][q := Header(mem[q].ptr, n)]
  }

  ghost function SplitOwner(owner: map<int, int>, q: int, n: int): map<int, int> {
    map u | u in owner :: if q <= u < q + n then q else owner[u]
  }

  /** `mem'` and `owner'` give the last n units of block p to a block of their own at q. */
  ghost predicate SplitOff(mem: Memory, owner: map<int, int>, mem': Memory, owner': map<int, int>, p: int, q: int,
                           n: int) {
    && p in mem && q in mem && p < q && 1 <= n && q + n == p + mem[p].size && mem'.Keys == mem.Keys
    && mem'[p].size == mem[p].size - n && mem'[q].size == n
    && (forall c :: c in mem && c != p && c != q ==> mem'[c].size == mem[c].size)
    && owner'.Keys == owner.Keys
    && (forall u :: u in owner ==> owner'[u] == if q <= u < q + n then q else owner[u])
  }

  lemma SplitIsOff(mem: Memory, owner: map<int, int>, p: int, n: int)
    requires p in mem && 1 <= n < mem[p].size && p + mem[p].size - n in mem
    ensures SplitOff(mem, owner, SplitMem(mem, p, n), SplitOwner(owner, p + mem[p].size - n, n), p, p + mem[p].size - n,
                     n)
  {
  }

  lemma SplitKeepsOwns(mem: Memory, base: int, blocks: set<int>, owner: map<int, int>,
                       mem': Memory, owner': map<int, int>, p: int, q: int, n: int, b: int)
    requires Tiled(mem, base, blocks, owner) && p in blocks && SplitOff(mem, owner, mem', owner', p, q, n)
    requires b in blocks || b == q
    ensures Owns(mem', owner', b)
  {
    assert Owns(mem, owner, p) && owner[q] == p;
    if b != q {
      assert Owns(mem, owner, b);
    }
  }

  lemma SplitKeepsOwner(mem: Memory, base: int, blocks: set<int>, owner: map<int, int>,
                        mem': Memory, owner': map<int, int>, p: int, q: int, n: int, u: int)
    requires Tiled(mem, base, blocks, owner) && p in blocks && SplitOff(mem, owner, mem', owner', p, q, n) && u in owner
    ensures u > base && (owner'[u] in blocks || owner'[u] == q) && owner'[u] in mem
    ensures owner'[u] <= u < owner'[u] + mem'[owner'[u]].size
  {
    assert Owns(mem, owner, p) && owner[q] == p;
    assert Owns(mem, owner, owner[u]);
  }

  lemma SplitKeepsTiling(mem: Memory, base: int, blocks: set<int>, owner: map<int, int>, p: int, n: int)
    requires Tiled(mem, base, blocks, owner) && p in blocks && p in mem && 1 <= n < mem[p].size
    ensures p + mem[p].size - n in mem
    ensures Tiled(SplitMem(mem, p, n), base, blocks + {p + mem[p].size - n}, SplitOwner(owner, p + mem[p].size - n, n))
  {
    hide SplitMem, SplitOwner, Owns;
    var q := p + mem[p].size - n;
    LiveUnit(mem, base, blocks, owner, p, q);
    SplitIsOff(mem, owner, p, n);
    var mem', owner' := SplitMem(mem, p, n), SplitOwner(owner, q, n);
    forall b | b in blocks + {q} ensures Owns(mem', owner', b) {
      SplitKeepsOwns(mem, base, blocks, owner, mem', owner', p, q, n, b);
    }
    forall u | u in owner'
      ensures u > base && owner'[u] in blocks + {q} && owner'[u] in mem'
              && owner'[u] <= u < owner'[u] + mem'[owner'[u]].size
    {
      SplitKeepsOwner(mem, base, blocks, owner, mem', owner', p, q, n, u);
    }
  }

  lemma SplitKeepsRing(mem: Memory, base: int, ring: seq<int>, i: nat, n: int)
    requires RingOk(mem, base, ring) && 0 < i < |ring| && 1 <= n < mem[ring[i]].size
    requires ring[i] + mem[ring[i]].size - n in mem
    requires forall j :: 0 <= j < |ring| ==> ring[j] != ring[i] + mem[ring[i]].size - n
    ensures RingOk(SplitMem(mem, ring[i], n), base, ring)
  {
    var mem' := SplitMem(mem, ring[i], n);
    forall j | 0 <= j < |ring|
      ensures mem'[ring[j]].ptr == Succ(ring, j)
      ensures j + 1 < |ring| ==> ring[j] + mem'[ring[j]].size <= ring[j + 1]
    {
      assert mem[ring[j]].ptr == Succ(ring, j);
      assert j != i ==> ring[j] != ring[i];
    }
  }

  /** The split point is no block yet. */
  lemma TailFresh(mem: Memory, base: int, ring: seq<int>, live: set<int>, owner: map<int, int>, i: nat, n: int)
    requires Inv(mem, base, ring, live, owner) && 0 < i < |ring| && ring[i] in mem && 1 <= n < mem[ring[i]].size
    ensures var q := ring[i] + mem[ring[i]].size - n;
            q in mem && q in owner && owner[q] == ring[i] && q !in live && q !in FreeSet(ring)
    ensures forall j :: 0 <= j < |ring| ==> ring[j] != ring[i] + mem[ring[i]].size - n
  {
    hide Tiled, RingOk;
    var q := ring[i] + mem[ring[i]].size - n;
    var blocks := live + FreeSet(ring);
    FreeMember(mem, base, ring, i);
    RingStart(mem, base, ring);
    LiveUnit(mem, base, blocks, owner, ring[i], q);
    if q in blocks {
      LiveAboveBase(mem, base, blocks, owner, q);
    }
    assert forall j :: 1 <= j < |ring| ==> ring[j] in FreeSet(ring);
  }

  lemma SplitCoalesced(mem: Memory, free: set<int>, p: int, n: int)
    requires Coalesced(mem, free) && p in free && 1 <= n < mem[p].size
    requires p + mem[p].size - n in mem && p + mem[p].size - n !in free
    ensures Coalesced(SplitMem(mem, p, n), free)
  {
  }

  /** Handing out the tail of a larger free block. */
  lemma TakeTailKeepsInv(mem: Memory, base: int, ring: seq<int>, live: set<int>, owner: map<int, int>, i: nat, n: int)
    requires Inv(mem, base, ring, live, owner) && 0 < i < |ring| && ring[i] in mem && 1 <= n < mem[ring[i]].size
    ensures ring[i] + mem[ring[i]].size - n in mem
    ensures var q := ring[i] + mem[ring[i]].size - n;
            Inv(SplitMem(mem, ring[i], n), base, ring, live + {q}, SplitOwner(owner, q, n))
  {
    hide Tiled, RingOk, FreeSet, Coalesced, SplitMem, SplitOwner;
    var q := ring[i] + mem[ring[i]].size - n;
    FreeMember(mem, base, ring, i);
    TailFresh(mem, base, ring, live, owner, i, n);
    SplitKeepsRing(mem, base, ring, i, n);
    SplitCoalesced(mem, FreeSet(ring), ring[i], n);
    SplitKeepsTiling(mem, base, live + FreeSet(ring), owner, ring[i], n);
    assert (live + {q}) + FreeSet(ring) == (live + FreeSet(ring)) + {q};
  }

  /** Fresh memory [start, start + n), headed as one block. */
  ghost predicate Grown(mem: Memory, mem': Memory, owner: map<int, int>, owner': map<int, int>, start: int, n: int) {
    && (forall u :: u in mem' <==> u in mem || start <= u < start + n)
    && (forall u :: u in mem ==> mem'[u] == mem[u])
    && start in mem' && mem'[start].size == n
    && (forall u :: u in owner' <==> u in owner || start <= u < start + n)
    && (forall u :: u in owner' ==> owner'[u] == if start <= u < start + n then start else owner[u])
  }

  lemma GrowKeepsTiling(mem: Memory, base: int, blocks: set<int>, owner: map<int, int>,
                        mem': Memory, owner': map<int, int>, start: int, n: int)
    requires Tiled(mem, base, blocks, owner) && n >= 1 && Grown(mem, mem', owner, owner', start, n)
    requires base in mem && forall u :: u in mem ==> u < start
    ensures Tiled(mem', base, blocks + {start}, owner')
  {
    forall b | b in blocks + {start} ensures Owns(mem', owner', b) {
      if b != start {
        assert Owns(mem, owner, b);
      }
    }
  }

  /** Memory from `sbrk` enters as one live block, which `morecore` then frees. */
  lemma GrowKeepsInv(mem: Memory, base: int, ring: seq<int>, live: set<int>, owner: map<int, int>,
                     mem': Memory, owner': map<int, int>, start: int, n: int)
    requires Inv(mem, base, ring, live, owner) && n >= 1 && Grown(mem, mem', owner, owner', start, n)
    requires forall u :: u in mem ==> u < start
    ensures Inv(mem', base, ring, live + {start}, owner')
  {
    hide Tiled, FreeSet;
    RingStart(mem, base, ring);
    GrowKeepsTiling(mem, base, live + FreeSet(ring), owner, mem', owner', start, n);
    FreeInMem(mem, base, ring);
    assert start !in FreeSet(ring);
    assert (live + {start}) + FreeSet(ring) == (live + FreeSet(ring)) + {start};
  }

  lemma FreeInMem(mem: Memory, base: int, ring: seq<int>)
    requires RingOk(mem, base, ring)
    ensures forall b :: b in FreeSet(ring) ==> b in mem
  {
  }

  /** `sbrk` adds the units [start, start + n), whatever they hold, and `morecore` heads them. */
  function GrowMem(mem: Memory, uninit: int -> Header, start: int, n: nat): Memory {
    var m := mem + map u | start <= u < start + n :: uninit(u);
    m[start := Header(uninit(start).ptr, n)]
  }

  ghost function GrowOwner(owner: map<int, int>, start: int, n: nat): map<int, int> {
    owner + map u | start <= u < start + n :: HeadOf(start, u)
  }

  ghost function HeadOf(start: int, u: int): int {
    start
  }

  lemma GrowMemGrown(mem: Memory, uninit: int -> Header, owner: map<int, int>, start: int, n: nat)
    requires n >= 1 && (forall u :: u in mem ==> u < start) && (forall u :: u in owner ==> u in mem)
    ensures Grown(mem, GrowMem(mem, uninit, start, n), owner, GrowOwner(owner, start, n), start, n)
  {
  }

  /** All that new memory does before it is freed into the ring. */
  lemma GrowEffect(mem: Memory, base: int, ring: seq<int>, live: set<int>, owner: map<int, int>,
                   uninit: int -> Header, start: int, n: nat)
    requires Inv(mem, base, ring, live, owner) && n >= 1 && (forall u :: u in mem ==> u < start)
    ensures var m := GrowMem(mem, uninit, start, n);
            && Inv(m, base, ring, live + {start}, GrowOwner(owner, start, n))
            && (forall u :: u in m <==> u in mem || start <= u < start + n) && m[start].size == n
            && Untouched(mem, m, live)
    ensures start !in live
  {
    OwnedInMem(mem, base, ring, live, owner);
    hide Inv, GrowMem, GrowOwner;
    GrowMemGrown(mem, uninit, owner, start, n);
    GrowKeepsInv(mem, base, ring, live, owner, GrowMem(mem, uninit, start, n), GrowOwner(owner, start, n), start, n);
  }


  /** The break as a unit number. */
  lemma BreakUnit(mem: Memory, brk: nat)
    requires brk % PAGE_SIZE == 0 && forall u :: u in mem ==> (u + 1) * UNIT <= brk
    ensures brk / UNIT * UNIT == brk && forall u :: u in mem ==> u < brk / UNIT
  {
    var k := brk / PAGE_SIZE;
    assert brk == PAGE_SIZE * k == UNIT * (256 * k);
    assert brk / UNIT == 256 * k;
  }

  lemma OwnedInMem(mem: Memory, base: int, ring: seq<int>, live: set<int>, owner: map<int, int>)
    requires Inv(mem, base, ring, live, owner)
    ensures forall u :: u in owner ==> u in mem
    ensures forall b :: b in live ==> b in mem
    ensures Untouched(mem, mem, live)
  {
    hide RingOk, Coalesced, FreeSet;
    forall b | b in live ensures Owns(mem, owner, b) {
    }
  }

  lemma UntouchedTrans(mem: Memory, mem': Memory, mem'': Memory, live: set<int>)
    requires Untouched(mem, mem', live) && Untouched(mem', mem'', live)
    ensures Untouched(mem, mem'', live)
  {
    forall b, u | b in live && b in mem && b <= u < b + mem[b].size ensures u in mem && u in mem''
      && mem''[u] == mem[u] {
      assert mem'[b] == mem[b];
    }
  }

  /** Writing only to `base` or to units of free blocks leaves live blocks alone. */
  lemma WritesOutsideLive(mem: Memory, mem': Memory, base: int, ring: seq<int>, live: set<int>, owner: map<int, int>,
                          w: set<int>)
    requires Inv(mem, base, ring, live, owner)
    requires forall x :: x in w ==> x == base || (x in owner && owner[x] !in live)
    requires forall u :: u in mem ==> u in mem' && (u !in w ==> mem'[u] == mem[u])
    ensures Untouched(mem, mem', live)
  {
    hide RingOk, Coalesced, FreeSet, Tiled;
    forall b, u | b in live && b in mem && b <= u < b + mem[b].size ensures u in mem && mem'[u] == mem[u] {
      LiveUnit(mem, base, live + FreeSet(ring), owner, b, u);
    }
  }

  /** A free block owns its header, and no live block does. */
  lemma FreeHeader(mem: Memory, base: int, ring: seq<int>, live: set<int>, owner: map<int, int>, i: nat)
    requires Inv(mem, base, ring, live, owner) && i < |ring|
    ensures ring[i] == base || (ring[i] in owner && owner[ring[i]] == ring[i] && ring[i] !in live)
    ensures ring[i] in mem && ring[i] >= base && (ring[i] == base <==> i == 0)
  {
    hide Coalesced;
    if i > 0 {
      assert ring[i] in FreeSet(ring);
      LiveAboveBase(mem, base, live + FreeSet(ring), owner, ring[i]);
    }
  }

  /** The block handed out of free block p: p itself, or its last n units. */
  function TakenBlock(mem: Memory, p: int, n: int): int
    requires p in mem
  {
    if mem[p].size == n then p else p + mem[p].size - n
  }

  function TakenMem(mem: Memory, p: int, prevp: int, n: int): Memory
    requires p in mem && prevp in mem && (mem[p].size != n ==> p + mem[p].size - n in mem)
  {
    if mem[p].size == n then BypassMem(mem, p, prevp) else SplitMem(mem, p, n)
  }

  /** All that handing out n units of free block ring[i] does. */
  lemma TakeEffect(mem: Memory, base: int, ring: seq<int>, live: set<int>, owner: map<int, int>, i: nat, n: int)
    returns (m: Memory, q: int, ring': seq<int>, owner': map<int, int>)
    requires Inv(mem, base, ring, live, owner) && 0 < i < |ring| && n >= 1 && ring[i] in mem && mem[ring[i]].size >= n
    ensures ring[i - 1] in mem && (mem[ring[i]].size != n ==> ring[i] + mem[ring[i]].size - n in mem)
    ensures q == TakenBlock(mem, ring[i], n) && m == TakenMem(mem, ring[i], ring[i - 1], n)
    ensures ring[i - 1] >= base && ring[i - 1] in ring'
    ensures q in m && m[q].size == n && q !in live && q > base && m.Keys == mem.Keys
    ensures Inv(m, base, ring', live + {q}, owner') && Untouched(mem, m, live)
    ensures forall u :: q <= u < q + n ==> u in owner && owner[u] == ring[i]
  {
    hide RingOk, Tiled, Coalesced, FreeSet, Untouched, SplitOwner;
    FreeHeader(mem, base, ring, live, owner, i);
    FreeHeader(mem, base, ring, live, owner, i - 1);
    FreeMember(mem, base, ring, i);
    var p := ring[i];
    TakenUnits(mem, base, ring, live, owner, p, n);
    if mem[p].size == n {
      q, m, owner' := p, BypassMem(mem, p, ring[i - 1]), owner;
      ring' := TakeWholeKeepsInv(mem, base, ring, live, owner, i);
      WritesOutsideLive(mem, m, base, ring, live, owner, {ring[i - 1]});
    } else {
      TakeTailKeepsInv(mem, base, ring, live, owner, i, n);
      TailFresh(mem, base, ring, live, owner, i, n);
      q, m, ring' := p + mem[p].size - n, SplitMem(mem, p, n), ring;
      owner' := SplitOwner(owner, q, n);
      WritesOutsideLive(mem, m, base, ring, live, owner, {p, q});
    }
  }

  lemma TakenUnits(mem: Memory, base: int, ring: seq<int>, live: set<int>, owner: map<int, int>, p: int, n: int)
    requires Inv(mem, base, ring, live, owner) && p in FreeSet(ring) && p in mem && 1 <= n <= mem[p].size
    ensures p > base
    ensures forall u :: TakenBlock(mem, p, n) <= u < TakenBlock(mem, p, n) + n ==> u in owner && owner[u] == p
  {
    hide RingOk, Coalesced, FreeSet;
    LiveAboveBase(mem, base, live + FreeSet(ring), owner, p);
    assert Owns(mem, owner, p);
  }

  /** The links, in the form a walk along the ring uses them. */
  ghost predicate Walkable(mem: Memory, base: int, ring: seq<int>) {
    && |ring| >= 1 && ring[0] == base && base in mem && mem[base].size == 0
    && (forall i :: 0 <= i < |ring| ==> ring[i] in mem && ring[i] >= base && mem[ring[i]].ptr == Succ(ring, i))
    && (forall i :: 0 < i < |ring| ==> ring[i] > base)
  }

  lemma WalkFacts(mem: Memory, base: int, ring: seq<int>, live: set<int>, owner: map<int, int>)
    requires Inv(mem, base, ring, live, owner)
    ensures Walkable(mem, base, ring)
  {
    hide Tiled, Coalesced, FreeSet;
    forall i | 0 <= i < |ring| ensures ring[i] >= base && mem[ring[i]].ptr == Succ(ring, i) {
      assert i > 0 ==> ring[0] < ring[i];
    }
  }

  lemma InitInv(mem: Memory, base: int)
    requires mem.Keys == {base} && mem[base] == Header(base, 0)
    ensures Inv(mem, base, [base], {}, map[])
  {
    assert FreeSet([base]) == {};
  }

  /** Some ring member has at least n units. */
  ghost predicate Fits(mem: Memory, ring: seq<int>, n: nat) {
    exists i :: 0 <= i < |ring| && ring[i] in mem && mem[ring[i]].size >= n
  }

  /** Only a free block has a size. */
  lemma NotBase(mem: Memory, base: int, ring: seq<int>, live: set<int>, owner: map<int, int>, i: nat)
    requires Inv(mem, base, ring, live, owner) && i < |ring| && ring[i] in mem && mem[ring[i]].size >= 1
    ensures 0 < i
  {
  }

  lemma BaseFitsNothing(mem: Memory, base: int, live: set<int>, owner: map<int, int>, n: nat)
    requires Inv(mem, base, [base], live, owner) && n >= 1
    ensures !Fits(mem, [base], n)
  {
  }

  lemma MemberOnce(mem: Memory, base: int, ring: seq<int>, live: set<int>, owner: map<int, int>, i: nat, j: nat)
    requires Inv(mem, base, ring, live, owner) && i < |ring| && j < |ring| && ring[i] == ring[j]
    ensures i == j
  {
    hide Tiled, Coalesced, FreeSet;
  }

  lemma UntouchedNone(mem: Memory)
    ensures forall mem' {:trigger Untouched(mem, mem', {})} :: Untouched(mem, mem', {})
  {
  }

  /** After a growth the block that `freep` heads or links to is large enough. */
  lemma FreepFits(mem: Memory, base: int, ring: seq<int>, live: set<int>, owner: map<int, int>, p: int, n: nat)
    requires Inv(mem, base, ring, live, owner) && p in ring && p in mem && mem[p].ptr in mem
    requires mem[p].size >= n || mem[mem[p].ptr].size >= n
    ensures Fits(mem, ring, n)
  {
    hide Inv;
    WalkFacts(mem, base, ring, live, owner);
    var i :| 0 <= i < |ring| && ring[i] == p;
    assert mem[ring[i]].ptr == ring[if i + 1 < |ring| then i + 1 else 0];
  }

  /** Steps from ring position i onward to position k. */
  function Distance(n: nat, i: nat, k: nat): nat
    requires i < n && k < n
  {
    if i <= k then k - i else k - i + n
  }

  lemma DistanceDown(n: nat, i: nat, k: nat)
    requires i < n && k < n && i != k
    ensures Distance(n, if i + 1 < n then i + 1 else 0, k) < Distance(n, i, k)
  {
  }

  lemma FitsAt(mem: Memory, ring: seq<int>, i: nat, n: nat)
    requires i < |ring| && ring[i] in mem && mem[ring[i]].size >= n
    ensures Fits(mem, ring, n)
  {
  }

  /** Every member between `freep` (at position f, exclusive) and position i is smaller than n units. */
  ghost predicate Passed(mem: Memory, ring: seq<int>, f: nat, i: nat, n: nat) {
    && f < |ring| && i < |ring|
    && forall j {:trigger ring[j]} :: 0 <= j < |ring| && Distance(|ring|, j, f) > Distance(|ring|, i, f) ==>
         ring[j] in mem ==> mem[ring[j]].size < n
  }

  lemma PassedNone(mem: Memory, ring: seq<int>, f: nat, n: nat)
    requires f < |ring|
    ensures Passed(mem, ring, f, if f + 1 < |ring| then f + 1 else 0, n)
  {
  }

  lemma PassedStep(mem: Memory, ring: seq<int>, f: nat, i: nat, n: nat)
    requires Passed(mem, ring, f, i, n) && i != f && ring[i] in mem && mem[ring[i]].size < n
    ensures Passed(mem, ring, f, if i + 1 < |ring| then i + 1 else 0, n)
  {
  }

  lemma PassedAll(mem: Memory, ring: seq<int>, f: nat, n: nat)
    requires Passed(mem, ring, f, f, n) && ring[f] in mem && mem[ring[f]].size < n
    ensures !Fits(mem, ring, n)
  {
  }

  /** The allocator's static state: `base`, `freep` and the memory behind the break. */
  class Heap {
    const base: int
    const uninit: int -> Header          // what fresh memory happens to hold
    var mem: Memory
    var freep: int
    var brk: nat                         // in bytes
    ghost var ring: seq<int>
    ghost var live: set<int>
    ghost var owner: map<int, int>
    ghost var grows: nat                 // calls of `morecore`

    ghost predicate Valid()
      reads this
    {
      && 0 < base && (base + 1) * UNIT <= brk < STACK_END && brk % PAGE_SIZE == 0
      && (forall u :: u in mem ==> (u + 1) * UNIT <= brk)
      && if freep == 0 then ring == [] && live == {} && owner == map[] && mem.Keys == {base}
         else freep in ring && Inv(mem, base, ring, live, owner)
    }

    constructor (base: int, uninit: int -> Header, brk: nat)
      requires 0 < base && (base + 1) * UNIT <= brk < STACK_END && brk % PAGE_SIZE == 0
      ensures Valid() && live == {} && freep == 0 && this.brk == brk && this.base == base
    {
      this.base, this.uninit, this.brk := base, uninit, brk;
      mem := map[base := uninit(base)];
      freep, ring, live, owner, grows := 0, [], {}, map[], 0;
    }

    /** The search loop of `free`: from any `freep` it ends at the slot of bp. */
    method FindSlot(bp: int, ghost k: nat) returns (p: int)
      requires Valid() && bp in live && Slot(ring, bp, k)
      ensures p == ring[k]
    {
      hide Inv;
      p := freep;
      ghost var i: nat :| i < |ring| && ring[i] == p;
      SearchFacts(mem, base, ring, live, owner, bp, k);
      while !(bp > p && bp < mem[p].ptr)
        invariant i < |ring| && ring[i] == p && p in mem && mem[p].ptr == Succ(ring, i)
        decreases Distance(|ring|, i, k)
      {
        if p >= mem[p].ptr && (bp > p || bp < mem[p].ptr) {
          break;
        }
        i := if i + 1 < |ring| then i + 1 else 0;
        p := mem[p].ptr;
      }
    }

    /** `free`: gives a live block back. */
    method Free(ap: int)
      requires Valid() && ap - 1 in live && ap - 1 in mem
      modifies this`mem, this`freep, this`ring, this`live, this`owner
      ensures Valid() && freep != 0 && freep in mem && mem[freep].ptr in mem
      ensures var n := old(mem[ap - 1].size); mem[freep].size >= n || mem[mem[freep].ptr].size >= n
      ensures live == old(live) - {ap - 1} && mem.Keys == old(mem.Keys)
      ensures Untouched(old(mem), mem, live)
    {
      hide Inv, FreedMem, Untouched, Succ;
      var bp := ap - 1;
      LiveOutsideRing(mem, base, ring, live, owner, bp);
      ghost var k := SlotSearch(ring, bp);
      var p := FindSlot(bp, k);
      ghost var ring', owner' := FreeEffect(mem, base, ring, live, owner, bp, k);
      LinkIn(bp, p);
      freep := p;
      ring, live, owner := ring', live - {bp}, owner';
    }

    /** The part of `free` after the search: link the block in after p, merging where blocks touch. */
    method LinkIn(bp: int, p: int)
      requires bp in mem && p in mem && mem[p].ptr in mem && bp != p && bp != mem[p].ptr
      modifies this`mem
      ensures mem == FreedMem(old(mem), p, old(mem[p].ptr), bp)
    {
      var nx := mem[p].ptr;
      if bp + mem[bp].size == nx {
        mem := mem[bp := Header(mem[nx].ptr, mem[bp].size + mem[nx].size)];
      } else {
        mem := mem[bp := Header(nx, mem[bp].size)];
      }
      if p + mem[p].size == bp {
        mem := mem[p := Header(mem[bp].ptr, mem[p].size + mem[bp].size)];
      } else {
        mem := mem[p := Header(bp, mem[p].size)];
      }
    }

    /** `morecore`: asks the kernel for memory and frees it into the ring. */
    method Morecore(nunits: nat) returns (p: int)
      requires Valid() && freep != 0 && nunits >= 1 && brk + ExactPages(nunits) < WORD
      modifies this`mem, this`freep, this`ring, this`live, this`owner, this`brk, this`grows
      ensures Valid() && live == old(live) && freep != 0 && grows == old(grows) + 1
      ensures p == 0 <==> old(brk) + ExactPages(nunits) >= STACK_END
      ensures p == 0 ==> mem == old(mem) && freep == old(freep) && brk == old(brk) && ring == old(ring)
      ensures p != 0 ==>
                p == freep && p in mem && mem[p].ptr in mem && (mem[p].size >= nunits || mem[mem[p].ptr].size >= nunits)
      ensures old(mem.Keys) <= mem.Keys && Untouched(old(mem), mem, live)
      ensures p != 0 ==> brk == old(brk) + ExactPages(nunits)
      ensures p != 0 ==>
                forall u :: u in mem <==> u in old(mem) || old(brk) / UNIT <= u < old(brk) / UNIT + Asked(nunits)
    {
      hide Inv, Untouched, ExactPages, Sbrk;
      grows := grows + 1;
      var nu := Asked(nunits);
      SbrkGrants(brk, nunits);
      match Sbrk(brk, nu * UNIT % WORD)
      case None =>
        p := 0;
        OwnedInMem(mem, base, ring, live, owner);
      case Some(brk') =>
        var hp := Extend(brk', nu);
        ghost var m := mem;
        Free(hp + 1);
        UntouchedTrans(old(mem), m, mem, live);
        p := freep;
    }

    /** The units asked for, headed as one block at the old break.  Behind it, up to the new break, lies what the
        kernel's rounding added: less than a page, and in no block. */
    method Extend(brk': nat, nu: nat) returns (hp: int)
      requires Valid() && freep != 0 && nu >= 1
      requires brk + nu * UNIT <= brk' < STACK_END && brk' % PAGE_SIZE == 0
      modifies this`mem, this`live, this`owner, this`brk
      ensures Valid() && brk == brk' && hp !in old(live) && live == old(live) + {hp}
      ensures hp in mem && mem[hp].size == nu && old(mem.Keys) <= mem.Keys && Untouched(old(mem), mem, old(live))
      ensures hp * UNIT == old(brk) && forall u :: u in mem <==> u in old(mem) || hp <= u < hp + nu
      ensures forall u :: hp + nu <= u ==> u !in mem
    {
      hide Inv, Untouched, GrowMem, GrowOwner;
      hp := brk / UNIT;
      BreakUnit(mem, brk);
      GrowEffect(mem, base, ring, live, owner, uninit, hp, nu);
      mem := GrowMem(mem, uninit, hp, nu);
      live, owner, brk := live + {hp}, GrowOwner(owner, hp, nu), brk';
    }

    /** `malloc`.  A null result means the kernel refused to grow. */
    method Malloc(nbytes: nat) returns (ap: int)
      requires Valid() && nbytes < WORD && brk + ExactGrowth(nbytes) < WORD
      modifies this
      ensures Valid() && freep != 0 && old(mem.Keys) <= mem.Keys
      ensures old(grows) <= grows <= old(grows) + 1
      ensures old(freep) != 0 && Fits(old(mem), old(ring), NUnits(nbytes)) ==> grows == old(grows) && ap != 0
      ensures ap == 0 <==> !(old(freep) != 0 && Fits(old(mem), old(ring), NUnits(nbytes)))
                           && old(brk) + ExactPages(NUnits(nbytes)) >= STACK_END
      ensures ap == 0 ==> live == old(live) && (old(freep) != 0 ==> ring == old(ring) && mem == old(mem))
      ensures ap != 0 ==> ap - 1 !in old(live) && live == old(live) + {ap - 1}
      ensures ap != 0 ==> ap - 1 in mem && mem[ap - 1].size == NUnits(nbytes)
      ensures ap != 0 ==> nbytes <= (mem[ap - 1].size - 1) * UNIT < nbytes + UNIT
      ensures Untouched(old(mem), mem, old(live))
    {
      hide Inv, Untouched, Fits, NUnits, ExactGrowth, ExactPages, Sbrk, GrowBytes;
      var nunits := NUnits(nbytes);
      UnitsSuffice(brk, nbytes);
      UntouchedNone(mem);
      if freep == 0 {
        Init();
        BaseFitsNothing(mem, base, live, owner, nunits);
      }
      OwnedInMem(mem, base, ring, live, owner);
      ghost var lapped := false;
      while true
        invariant Valid() && freep != 0 && live == old(live)
        invariant old(mem.Keys) <= mem.Keys && Untouched(old(mem), mem, live)
        invariant !lapped ==>
                    brk == old(brk) && grows == old(grows) && (old(freep) != 0 ==> mem == old(mem) && ring == old(ring))
        invariant !lapped && old(freep) == 0 ==> !Fits(mem, ring, nunits)
        invariant lapped ==> grows == old(grows) + 1 && Fits(mem, ring, nunits)
        invariant lapped ==> old(brk) + ExactPages(nunits) < STACK_END
        invariant lapped && old(freep) != 0 ==> !Fits(old(mem), old(ring), nunits)
        decreases !lapped
      {
        var found, prevp, p, i := Lap(nunits);
        if found {
          ghost var m := mem;
          ap := Take(prevp, p, nunits, i);
          UntouchedTrans(old(mem), m, mem, old(live));
          return;
        }
        ghost var m := mem;
        p := Morecore(nunits);
        if p == 0 {
          UntouchedTrans(old(mem), m, mem, old(live));
          return 0;
        }
        UntouchedTrans(old(mem), m, mem, old(live));
        FreepFits(mem, base, ring, live, owner, p, nunits);
        lapped := true;
      }
    }

    /** One lap of `malloc`'s loop, from the member after `freep` to `freep` itself. */
    method Lap(nunits: nat) returns (found: bool, prevp: int, p: int, ghost i: nat)
      requires Valid() && freep != 0 && nunits >= 1
      ensures found <==> Fits(mem, ring, nunits)
      ensures found ==> 0 < i < |ring| && ring[i] == p && ring[i - 1] == prevp && p in mem && mem[p].size >= nunits
      ensures found ==> exists f: nat :: f < |ring| && ring[f] == freep && Passed(mem, ring, f, i, nunits)
    {
      hide Inv, Passed, Distance, Fits;
      WalkFacts(mem, base, ring, live, owner);
      ghost var f: nat :| f < |ring| && ring[f] == freep;
      PassedNone(mem, ring, f, nunits);
      prevp := freep;
      p := mem[prevp].ptr;
      i := if f + 1 < |ring| then f + 1 else 0;
      while mem[p].size < nunits
        invariant i < |ring| && ring[i] == p && p in mem
        invariant i > 0 ==> prevp == ring[i - 1]
        invariant Passed(mem, ring, f, i, nunits)
        decreases Distance(|ring|, i, f)
      {
        if p == freep {
          MemberOnce(mem, base, ring, live, owner, i, f);
          PassedAll(mem, ring, f, nunits);
          found := false;
          return;
        }
        PassedStep(mem, ring, f, i, nunits);
        DistanceDown(|ring|, i, f);
        prevp := p;
        p := mem[p].ptr;
        i := if i + 1 < |ring| then i + 1 else 0;
      }
      found := true;
      FitsAt(mem, ring, i, nunits);
      NotBase(mem, base, ring, live, owner, i);
    }

    /** The first call finds no ring yet and makes `base` the only member. */
    method Init()
      requires Valid() && freep == 0
      modifies this`mem, this`freep, this`ring
      ensures Valid() && freep == base && ring == [base] && mem.Keys == old(mem.Keys)
    {
      mem := mem[base := Header(base, 0)];
      freep := base;
      ring := [base];
      InitInv(mem, base);
    }

    /** Handing out n units of free block p, whose predecessor is prevp. */
    method Take(prevp: int, p: int, n: nat, ghost i: nat) returns (ap: int)
      requires Valid() && freep != 0 && 0 < i < |ring| && ring[i] == p && ring[i - 1] == prevp
      requires p in mem && mem[p].size >= n >= 1
      modifies this`mem, this`freep, this`ring, this`live, this`owner
      ensures Valid() && freep == prevp && mem.Keys == old(mem.Keys)
      ensures ap != 0 && ap - 1 !in old(live) && live == old(live) + {ap - 1} && ap - 1 in mem && mem[ap - 1].size == n
      ensures forall u :: ap - 1 <= u < ap - 1 + n ==> u in old(owner) && old(owner)[u] == p
      ensures ap - 1 == p + old(mem[p].size) - n
      ensures Untouched(old(mem), mem, old(live))
    {
      hide Inv, Untouched;
      ghost var m, q, ring', owner' := TakeEffect(mem, base, ring, live, owner, i, n);
      var r := p;
      if mem[p].size == n {
        mem := mem[prevp := Header(mem[p].ptr, mem[prevp].size)];
      } else {
        mem := mem[p := Header(mem[p].ptr, mem[p].size - n)];
        r := p + mem[p].size;
        mem := mem[r := Header(mem[r].ptr, n)];
      }
      freep := prevp;
      ap := r + 1;
      ring, live, owner := ring', live + {q}, owner';
    }
  }
}
