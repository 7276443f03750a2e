/** Blocks of one file: allocation, lookup, teardown and byte-wise reading and writing, over a
    store of whole 4096-byte blocks. */
module FileSystem {
  import opened Bitmap
  import opened BlockTree

  const FIRST_DATA: int := 0x100 + 546    // FS_START_SECTOR + DATA_OFFSET
  const NBLOCKS: int := (0x10_0000 - 546) / 8
  const MAP_BYTES: int := 32 * 512
  const FAIL: int := 0xFFFF_FFFF          // (uint32_t) -1

  function SectorOf(b: int): int {
    8 * b + FIRST_DATA
  }

  function BlockIdx(s: int): int {
    (s - FIRST_DATA) / 8
  }

  /** The data blocks fill the data area, eight sectors each, and end within the file system. */
  lemma BlockSectors(b: int)
    ensures SectorOf(0) == 0x322 && SectorOf(b + 1) == SectorOf(b) + 8 && BlockIdx(SectorOf(b)) == b
    ensures 0 <= b < NBLOCKS ==> 0x322 <= SectorOf(b) && SectorOf(b) + 8 <= 0x100 + 0x10_0000
    ensures SectorOf(NBLOCKS) + 8 > 0x100 + 0x10_0000
  {
  }

  ghost predicate IsData(s: int) {
    0 <= BlockIdx(s) < NBLOCKS && s == SectorOf(BlockIdx(s))
  }

  /** The file system as the tree operations see it: the inode's pointers, the block store, the
      block bitmap, and the tree's inverse map from sectors to places. */
  datatype View = View(blocks: seq<int>, store: Store, loc: map<int, Path>, bits: Bits) {
    ghost function Ptr(p: Path): int {
      At(blocks, store, p)
    }
  }

  ghost predicate Ok(v: View) {
    && |v.bits| == MAP_BYTES
    && (forall s :: IsData(s) || s == 0 ==> s in v.store && IsBlock(v.store[s]))
    && Tree(v.blocks, v.store, v.loc)
    && (forall s :: s in v.loc ==> IsData(s) && Bit(v.bits, BlockIdx(s)))
  }

  /** From v to w only places on the way to p were filled, each with a block that was free. */
  ghost predicate Grew(v: View, w: View, p: Path) {
    && (forall q :: IsPath(q) && (v.Ptr(q) != 0 || !Prefix(q, p)) ==> w.Ptr(q) == v.Ptr(q))
    && (forall t :: t in v.loc ==> t in w.loc && w.loc[t] == v.loc[t])
    && |w.bits| == |v.bits| == MAP_BYTES
    && (forall t :: t in w.loc && t !in v.loc ==> IsData(t) && !Bit(v.bits, BlockIdx(t)) && Prefix(w.loc[t], p))
    && (forall b :: 0 <= b < NBLOCKS ==> (Bit(w.bits, b) <==> Bit(v.bits, b) || SectorOf(b) in w.loc))
    && (forall t :: t in v.store ==> t in w.store)
    && (forall t :: t in v.store && t !in w.loc ==> w.store[t] == v.store[t])
    && (forall t :: t in v.loc && t in v.store && Level(v.loc[t]) == 0 ==> w.store[t] == v.store[t])
  }

  lemma GrewNone(v: View, p: Path)
    requires Ok(v)
    ensures Grew(v, v, p)
  {
    hide Tree;
    forall b | 0 <= b < NBLOCKS && SectorOf(b) in v.loc ensures Bit(v.bits, b) {
      assert BlockIdx(SectorOf(b)) == b;
    }
  }

  lemma GrewTrans(u: View, v: View, w: View, p: Path)
    requires Grew(u, v, p) && Grew(v, w, p)
    ensures Grew(u, w, p)
  {
    hide At, Prefix, IsPath, Level;
    forall t | t in w.loc && t !in u.loc ensures IsData(t) && !Bit(u.bits, BlockIdx(t)) && Prefix(w.loc[t], p) {
      if t !in v.loc {
        assert SectorOf(BlockIdx(t)) == t;
      }
    }
  }

  /** Block s, zeroed, hung at place p. */
  ghost function Graft(v: View, p: Path, s: int): View
    requires 0 <= BlockIdx(s) < 8 * |v.bits| && CanGraft(v.blocks, v.store[s := ZeroBlock()], v.loc, p, s)
  {
    if p.Child? then
      ParentBlock(v.blocks, v.store[s := ZeroBlock()], v.loc, p, s);
      View(v.blocks, PutStore(v.blocks, v.store[s := ZeroBlock()], p, s), v.loc[s := p], SetBit(v.bits, BlockIdx(s)))
    else
      View(PutBlocks(v.blocks, p, s), v.store[s := ZeroBlock()], v.loc[s := p], SetBit(v.bits, BlockIdx(s)))
  }

  /** The empty place p may take the free block s. */
  ghost predicate Free(v: View, p: Path, s: int) {
    && Ok(v) && IsData(s) && !Bit(v.bits, BlockIdx(s))
    && IsPath(p) && v.Ptr(p) == 0 && (p.Child? ==> v.Ptr(p.parent) != 0)
  }

  lemma ZeroedCanGraft(v: View, p: Path, s: int)
    requires Free(v, p, s)
    ensures CanGraft(v.blocks, v.store[s := ZeroBlock()], v.loc, p, s)
    ensures forall q :: IsPath(q) ==> At(v.blocks, v.store[s := ZeroBlock()], q) == v.Ptr(q)
    ensures Tree(v.blocks, v.store[s := ZeroBlock()], v.loc)
  {
    ZeroWords(0);
    assert s !in v.loc;
    TreeFrame(v.blocks, v.store, v.store[s := ZeroBlock()], v.loc);
  }

  lemma GraftFacts(v: View, p: Path, s: int)
    requires Free(v, p, s)
    ensures s !in v.loc && CanGraft(v.blocks, v.store[s := ZeroBlock()], v.loc, p, s)
    ensures var w := Graft(v, p, s);
            && Tree(w.blocks, w.store, w.loc)
            && (forall q :: IsPath(q) ==> w.Ptr(q) == if q == p then s else v.Ptr(q))
            && w.loc == v.loc[s := p] && w.bits == SetBit(v.bits, BlockIdx(s))
  {
    ZeroedCanGraft(v, p, s);
    var store1 := v.store[s := ZeroBlock()];
    if p.Child? {
      ParentBlock(v.blocks, store1, v.loc, p, s);
    }
    GraftTree(v.blocks, store1, v.loc, p, s);
  }

  /** Below a pointer block, grafting is one word written into it. */
  lemma GraftChild(v: View, p: Path, s: int)
    requires Free(v, p, s) && p.Child? && CanGraft(v.blocks, v.store[s := ZeroBlock()], v.loc, p, s)
    ensures var t := v.Ptr(p.parent);
            && |v.bits| == MAP_BYTES && t in v.store && t != s && |v.store[t]| == BLOCK_SIZE && 0 <= p.i < N
               && 0 <= s < 0x1_0000_0000
            && Graft(v, p, s) == View(v.blocks, v.store[s := ZeroBlock()][t := SetWord(v.store[t], p.i, s)],
                                      v.loc[s := p], SetBit(v.bits, BlockIdx(s)))
  {
    ZeroedCanGraft(v, p, s);
    ParentBlock(v.blocks, v.store[s := ZeroBlock()], v.loc, p, s);
  }

  lemma GraftStore(v: View, p: Path, s: int)
    requires Free(v, p, s) && CanGraft(v.blocks, v.store[s := ZeroBlock()], v.loc, p, s)
    ensures var w := Graft(v, p, s);
            && w.store.Keys == v.store.Keys + {s}
            && (forall t :: t in v.store && t != s && (t in v.loc ==> Level(v.loc[t]) == 0) ==>
                w.store[t] == v.store[t])
            && (forall t :: t in w.loc ==> IsBlock(w.store[t]))
            && w.store[s] == ZeroBlock()
  {
    hide Tree;
    var store1 := v.store[s := ZeroBlock()];
    if p.Child? {
      ParentBlock(v.blocks, store1, v.loc, p, s);
    }
    PutStoreBlocks(v.blocks, store1, v.loc, p, s);
  }

  /** One allocation keeps the file system well formed and fills exactly one place. */
  lemma GraftEffect(v: View, p: Path, s: int, top: Path)
    requires Free(v, p, s) && Prefix(p, top)
    ensures s !in v.loc && CanGraft(v.blocks, v.store[s := ZeroBlock()], v.loc, p, s)
    ensures var w := Graft(v, p, s);
            && Ok(w) && Grew(v, w, top) && w.store[s] == ZeroBlock()
            && (forall q :: IsPath(q) ==> w.Ptr(q) == if q == p then s else v.Ptr(q))
  {
    hide Tree, At, Prefix, CanGraft, Graft, IsPath, Level, SetBit, Bit;
    GraftFacts(v, p, s);
    GraftStore(v, p, s);
    GraftBits(v, p, s);
  }

  lemma GraftBits(v: View, p: Path, s: int)
    requires Free(v, p, s)
    ensures var bits' := SetBit(v.bits, BlockIdx(s));
            && |bits'| == MAP_BYTES
            && (forall t :: t in v.loc[s := p] ==> IsData(t) && Bit(bits', BlockIdx(t)))
            && (forall b :: 0 <= b < NBLOCKS ==> (Bit(bits', b) <==> Bit(v.bits, b) || SectorOf(b) in v.loc[s := p]))
  {
    hide Tree, IsPath, Bit;
    var bits' := SetBit(v.bits, BlockIdx(s));
    forall b | 0 <= b < NBLOCKS
      ensures Bit(bits', b) <==> Bit(v.bits, b) || SectorOf(b) in v.loc[s := p]
    {
      BitAfterSet(v.bits, BlockIdx(s), b);
      assert BlockIdx(SectorOf(b)) == b;
    }
    forall t | t in v.loc[s := p] ensures IsData(t) && Bit(bits', BlockIdx(t)) {
      BitAfterSet(v.bits, BlockIdx(s), BlockIdx(t));
    }
  }

  /** Following one pointer. */
  lemma PtrStep(v: View, q: Path, i: int)
    requires Ok(v) && IsPath(Child(q, i))
    ensures v.Ptr(q) == 0 ==> v.Ptr(Child(q, i)) == 0
    ensures v.Ptr(q) != 0 ==>
              && v.Ptr(q) in v.store && IsBlock(v.store[v.Ptr(q)]) && v.Ptr(q) in v.loc && v.loc[v.Ptr(q)] == q
              && v.Ptr(Child(q, i)) == Word(v.store[v.Ptr(q)], i)
  {
  }

  lemma RootPtr(v: View, k: int)
    requires Ok(v) && 0 <= k < ROOTS
    ensures |v.blocks| == ROOTS && v.Ptr(Root(k)) == v.blocks[k] && IsPath(Root(k)) && |v.bits| == MAP_BYTES
  {
  }

  /** Place p now holds a zeroed block that was free, and no other place changed. */
  ghost predicate Fresh(v: View, w: View, p: Path) {
    && IsPath(p) && v.Ptr(p) == 0 && w.Ptr(p) != 0 && w.Ptr(p) !in v.loc
    && w.Ptr(p) in w.store && w.store[w.Ptr(p)] == ZeroBlock()
    && (forall q :: IsPath(q) && q != p ==> w.Ptr(q) == v.Ptr(q))
  }

  /** File block at p got a fresh zeroed block; everything else mapped before is as it was. */
  ghost predicate Mapped(v: View, w: View, p: Path) {
    && Grew(v, w, p) && v.Ptr(p) == 0
    && w.Ptr(p) != 0 && w.Ptr(p) !in v.loc && w.Ptr(p) in w.store && w.store[w.Ptr(p)] == ZeroBlock()
  }

  /** Blocks an allocation at p takes: one for every empty place from the root down. */
  ghost function Missing(v: View, p: Path): nat {
    (if p.Child? then Missing(v, p.parent) else 0) + if v.Ptr(p) == 0 then 1 else 0
  }

  lemma MissingUnfold(v: View, p: Path)
    ensures p.Child? ==> Missing(v, p) == Missing(v, p.parent) + if v.Ptr(p) == 0 then 1 else 0
    ensures p.Root? ==> Missing(v, p) == if v.Ptr(p) == 0 then 1 else 0
    ensures p.Child? && p.parent.Child? ==>
              Missing(v, p.parent) == Missing(v, p.parent.parent) + if v.Ptr(p.parent) == 0 then 1 else 0
    ensures p.Child? && p.parent.Child? && p.parent.parent.Child? ==>
              Missing(v, p.parent.parent)
              == Missing(v, p.parent.parent.parent) + if v.Ptr(p.parent.parent) == 0 then 1 else 0
  {
  }

  lemma MappedAfter(v: View, u: View, w: View, p: Path)
    requires Grew(v, u, p) && Grew(u, w, p) && Fresh(u, w, p) && v.Ptr(p) == 0
    ensures Mapped(v, w, p)
  {
    hide At, Prefix, IsPath;
    GrewTrans(v, u, w, p);
  }

  // ---------------------------------------------------------------- running out of blocks

  /** The empty place p was filled with -1, which is no block, and no pointer that was set has changed. */
  ghost predicate Spoilt(u: View, w: View, p: Path) {
    && IsPath(p) && u.Ptr(p) == 0 && w.Ptr(p) == FAIL && !Ok(w) && w.bits == u.bits
    && forall q :: IsPath(q) && u.Ptr(q) != 0 ==> w.Ptr(q) == u.Ptr(q)
  }

  lemma NoSuchBlock(w: View, p: Path)
    requires IsPath(p) && w.Ptr(p) == FAIL
    ensures !Ok(w)
  {
    assert !IsData(FAIL);
  }

  lemma {:induction false} RootSpoilKeeps(u: View, w: View, k: int, q: Path)
    requires w == u.(blocks := w.blocks) && 0 <= k < |u.blocks| && w.blocks == u.blocks[k := FAIL]
    requires u.Ptr(Root(k)) == 0 && u.Ptr(q) != 0
    ensures w.Ptr(q) == u.Ptr(q)
  {
    if q.Child? {
      RootSpoilKeeps(u, w, k, q.parent);
    }
  }

  lemma RootSpoils(u: View, w: View, k: int)
    requires w == u.(blocks := w.blocks) && 0 <= k < |u.blocks| && w.blocks == u.blocks[k := FAIL]
    requires IsPath(Root(k)) && u.Ptr(Root(k)) == 0
    ensures Spoilt(u, w, Root(k))
  {
    NoSuchBlock(w, Root(k));
    hide Ok, IsPath;
    forall q | IsPath(q) && u.Ptr(q) != 0 ensures w.Ptr(q) == u.Ptr(q) {
      RootSpoilKeeps(u, w, k, q);
    }
  }

  /** Entry i of the pointer block at q becomes -1. */
  ghost predicate EntrySpoilt(u: View, w: View, q: Path, i: int) {
    && Ok(u) && IsPath(Child(q, i)) && 0 <= i < N && u.Ptr(q) != 0 && u.Ptr(Child(q, i)) == 0
    && u.Ptr(q) in u.store && IsBlock(u.store[u.Ptr(q)])
    && w == u.(store := u.store[u.Ptr(q) := SetWord(u.store[u.Ptr(q)], i, FAIL)])
  }

  lemma {:induction false} EntrySpoilKeeps(u: View, w: View, q: Path, i: int, r: Path)
    requires EntrySpoilt(u, w, q, i) && IsPath(r) && u.Ptr(r) != 0
    ensures w.Ptr(r) == u.Ptr(r)
  {
    hide Ok, SetWord, Word, IsPath;
    if r.Child? {
      PtrStep(u, r.parent, r.i);
      Above(r);
      EntrySpoilKeeps(u, w, q, i, r.parent);
      PtrStep(u, q, i);
      WordAfterSet(u.store[u.Ptr(q)], i, FAIL, r.i);
    }
  }

  lemma EntrySpoils(u: View, w: View, q: Path, i: int)
    requires EntrySpoilt(u, w, q, i)
    ensures Spoilt(u, w, Child(q, i))
  {
    hide SetWord, Word, Ok, IsPath;
    Above(Child(q, i));
    WordAfterSet(u.store[u.Ptr(q)], i, FAIL, i);
    EntrySpoilKeeps(u, w, q, i, q);
    NoSuchBlock(w, Child(q, i));
    forall r | IsPath(r) && u.Ptr(r) != 0 ensures w.Ptr(r) == u.Ptr(r) {
      EntrySpoilKeeps(u, w, q, i, r);
    }
  }

  /** From v to u the way down to q was built, towards top. */
  ghost predicate Built(v: View, u: View, q: Path, top: Path) {
    && |v.bits| == |u.bits| == MAP_BYTES && Missing(v, q) <= FreeCount(v.bits, NBLOCKS)
    && Ok(u) && Grew(v, u, top) && u.Ptr(q) != 0
    && FreeCount(u.bits, NBLOCKS) == FreeCount(v.bits, NBLOCKS) - Missing(v, q)
    && forall r :: IsPath(r) && !Prefix(r, q) ==> u.Ptr(r) == v.Ptr(r)
  }

  /** On the way to top the free blocks ran out at p: all of them were used on the places above, and p holds -1. */
  ghost predicate RanOutAt(v: View, w: View, top: Path, p: Path) {
    && |v.bits| == MAP_BYTES && Prefix(p, top) && v.Ptr(p) == 0 && w.Ptr(p) == FAIL
    && Missing(v, p) == FreeCount(v.bits, NBLOCKS) + 1
  }

  /** So what is left is no tree any more; the pointers set before are still there. */
  ghost predicate Ruined(v: View, w: View, top: Path) {
    && !Ok(w) && |w.bits| == MAP_BYTES && FreeCount(w.bits, NBLOCKS) == 0
    && (exists p :: RanOutAt(v, w, top, p))
    && forall q :: IsPath(q) && v.Ptr(q) != 0 ==> w.Ptr(q) == v.Ptr(q)
  }

  /** An allocation at p: it succeeds and takes exactly the blocks missing, if there are as many. */
  ghost predicate Outcome(v: View, w: View, p: Path) {
    && |v.bits| == |w.bits| == MAP_BYTES
    && if FreeCount(v.bits, NBLOCKS) >= Missing(v, p)
       then Ok(w) && Mapped(v, w, p) && FreeCount(w.bits, NBLOCKS) == FreeCount(v.bits, NBLOCKS) - Missing(v, p)
       else Ruined(v, w, p)
  }

  /** Below the built part nothing has changed yet. */
  lemma BelowBuilt(v: View, u: View, q: Path, i: int, top: Path)
    requires Built(v, u, q, top) && IsPath(Child(q, i))
    ensures u.Ptr(Child(q, i)) == v.Ptr(Child(q, i))
    ensures Missing(v, Child(q, i)) == Missing(v, q) + if v.Ptr(Child(q, i)) == 0 then 1 else 0
  {
    hide Ok, Grew, At, IsPath, FreeCount, First, Level;
    Above(Child(q, i));
    if Prefix(Child(q, i), q) {
      PrefixBounds(Child(q, i), q);
    }
  }

  lemma BuiltDown(v: View, u: View, q: Path, i: int, top: Path)
    requires Built(v, u, q, top) && IsPath(Child(q, i)) && u.Ptr(Child(q, i)) != 0
    ensures Built(v, u, Child(q, i), top)
  {
    BelowBuilt(v, u, q, i, top);
    hide Ok, Grew, At, IsPath, FreeCount;
  }

  lemma BuiltFresh(v: View, u: View, w: View, q: Path, i: int, top: Path)
    requires Built(v, u, q, top) && IsPath(Child(q, i)) && Prefix(Child(q, i), top) && Fresh(u, w, Child(q, i))
    requires Ok(w) && Grew(u, w, top) && |w.bits| == MAP_BYTES
    requires FreeCount(w.bits, NBLOCKS) == FreeCount(u.bits, NBLOCKS) - 1
    ensures Built(v, w, Child(q, i), top)
    ensures Child(q, i) == top ==> Outcome(v, w, top)
  {
    BelowBuilt(v, u, q, i, top);
    hide Ok, Grew, At, IsPath, FreeCount;
    GrewTrans(v, u, w, top);
    if Child(q, i) == top {
      MappedAfter(v, u, w, top);
    }
  }

  /** Filling the next place with the last block gone. */
  lemma BuiltRuins(v: View, u: View, w: View, q: Path, i: int, top: Path)
    requires Built(v, u, q, top) && IsPath(Child(q, i)) && Prefix(Child(q, i), top) && Spoilt(u, w, Child(q, i))
    requires FreeCount(u.bits, NBLOCKS) == 0
    ensures Missing(v, Child(q, i)) > FreeCount(v.bits, NBLOCKS) && Ruined(v, w, top)
  {
    BelowBuilt(v, u, q, i, top);
    hide Ok, At, IsPath, FreeCount, Prefix;
    assert RanOutAt(v, w, top, Child(q, i));
  }

  lemma NeverFail(u: View, p: Path)
    requires Ok(u) && IsPath(p)
    ensures u.Ptr(p) != FAIL
  {
    hide IsPath, At;
    if u.Ptr(p) == FAIL {
      NoSuchBlock(u, p);
    }
  }

  /** The same at an inode pointer. */
  lemma RootBuilt(v: View, k: int, top: Path)
    requires Ok(v) && 0 <= k < ROOTS && v.Ptr(Root(k)) != 0
    ensures Built(v, v, Root(k), top)
  {
    hide Grew, FreeCount;
    GrewNone(v, top);
  }

  lemma RootFresh(v: View, w: View, k: int, top: Path)
    requires Ok(v) && Ok(w) && 0 <= k < ROOTS && Fresh(v, w, Root(k)) && Grew(v, w, top)
    requires |v.bits| == |w.bits| == MAP_BYTES && FreeCount(w.bits, NBLOCKS) == FreeCount(v.bits, NBLOCKS) - 1
    ensures Built(v, w, Root(k), top)
    ensures Root(k) == top ==> Outcome(v, w, top)
  {
    hide Ok, Grew, At, FreeCount;
    if Root(k) == top {
      GrewNone(v, top);
      MappedAfter(v, v, w, top);
    }
  }

  lemma RootRuins(v: View, w: View, k: int, top: Path)
    requires |v.bits| == MAP_BYTES && Spoilt(v, w, Root(k)) && Prefix(Root(k), top) && FreeCount(v.bits, NBLOCKS) == 0
    ensures Missing(v, Root(k)) > FreeCount(v.bits, NBLOCKS) && Ruined(v, w, top)
  {
    hide Ok, At, IsPath, FreeCount, Prefix;
    assert RanOutAt(v, w, top, Root(k));
  }

  /** A disk with no file on it and every bit set. */
  ghost function FullDisk(): View {
    View(seq(ROOTS, _ => 0), FormattedStore(), map[], seq(MAP_BYTES, _ => 0xFF))
  }

  /** There a file's first block is ruined. */
  lemma FullDiskRuins()
    ensures var v := FullDisk();
            && Ok(v) && FreeCount(v.bits, NBLOCKS) == 0 && v.Ptr(PathOf(0)) == 0
            && Ruined(v, v.(blocks := v.blocks[0 := FAIL]), PathOf(0))
  {
    hide FormattedStore, Ok, FreeCount, Bit, IsPath;
    var v := FullDisk();
    FullDiskOk();
    AllTaken();
    RootPtr(v, 0);
    var w := v.(blocks := v.blocks[0 := FAIL]);
    RootSpoils(v, w, 0);
    assert RanOutAt(v, w, PathOf(0), Root(0));
  }

  lemma FullDiskOk()
    ensures Ok(FullDisk())
  {
    hide FormattedStore, Tree;
    FormattedOk();
  }

  lemma AllTaken()
    ensures FreeCount(seq(MAP_BYTES, _ => 0xFF), NBLOCKS) == 0
  {
    var m: Bits := seq(MAP_BYTES, _ => 0xFF);
    FreeCountPositive(m, NBLOCKS);
    forall i | 0 <= i < NBLOCKS ensures Bit(m, i) {
      assert Test(0xFF, i % 8);
    }
  }

  /** The places an allocation for file block id visits. */
  lemma PathPrefixes(id: int)
    requires 0 <= id < MAX_IDS
    ensures var p := PathOf(id);
            && IsPath(p) && Prefix(p, p)
            && (id < DIRECT ==> p == Root(id))
            && (DIRECT <= id < DIRECT + N ==>
                  p == Child(Root(DIRECT), id - DIRECT) && IsPath(p.parent) && Prefix(p.parent, p))
            && (DIRECT + N <= id < DIRECT + N + N * N ==>
                  && p == Child(Child(Root(DIRECT + 1), (id - DIRECT - N) / N), (id - DIRECT - N) % N)
                  && IsPath(p.parent) && Prefix(p.parent, p) && IsPath(p.parent.parent) && Prefix(p.parent.parent, p))
            && (DIRECT + N + N * N <= id ==>
                  var i3 := (id - DIRECT - N - N * N) / (N * N);
                  && p == Child(Child(Child(Root(DIRECT + 2), i3), (id - DIRECT - N - N * N - i3 * (N * N)) / N),
                                (id - DIRECT - N - N * N) % N)
                  && IsPath(p.parent) && Prefix(p.parent, p) && IsPath(p.parent.parent) && Prefix(p.parent.parent, p)
                  && IsPath(p.parent.parent.parent) && Prefix(p.parent.parent.parent, p))
  {
    PathOfId(id);
    var p := PathOf(id);
    if p.Child? && p.parent.Child? && p.parent.parent.Child? {
      assert Prefix(p.parent.parent.parent, p.parent);
    }
  }

  // ---------------------------------------------------------------- tearing the tree down

  /** The places a descending teardown of nb file blocks is done with, once it is done with every
      place starting above lo and, at lo, with all levels below l. */
  ghost predicate Gone(p: Path, lo: int, l: int, nb: int) {
    First(p) < nb && (First(p) > lo || (First(p) == lo && Level(p) < l))
  }

  /** Against v, exactly the blocks of finished places have been given back. */
  ghost predicate Released(v: View, bits: Bits, lo: int, l: int, nb: int) {
    && |bits| == |v.bits| == MAP_BYTES
    && forall b :: 0 <= b < NBLOCKS ==>
         (Bit(bits, b) <==> Bit(v.bits, b) && !(SectorOf(b) in v.loc && Gone(v.loc[SectorOf(b)], lo, l, nb)))
  }

  lemma ReleaseSame(v: View, bits: Bits, lo: int, l: int, lo': int, l': int, nb: int)
    requires Ok(v) && Released(v, bits, lo, l, nb)
    requires forall p :: IsPath(p) && v.Ptr(p) != 0 ==> (Gone(p, lo, l, nb) <==> Gone(p, lo', l', nb))
    ensures Released(v, bits, lo', l', nb)
  {
    hide At, IsPath, Gone, Bit;
    forall b | 0 <= b < NBLOCKS && SectorOf(b) in v.loc
      ensures Gone(v.loc[SectorOf(b)], lo, l, nb) <==> Gone(v.loc[SectorOf(b)], lo', l', nb)
    {
      assert v.Ptr(v.loc[SectorOf(b)]) == SectorOf(b);
    }
  }

  /** A place not yet finished still owns its block. */
  lemma StillHeld(v: View, bits: Bits, lo: int, l: int, nb: int, p: Path)
    requires Ok(v) && Released(v, bits, lo, l, nb) && IsPath(p) && v.Ptr(p) != 0 && !Gone(p, lo, l, nb)
    ensures IsData(v.Ptr(p)) && Bit(bits, BlockIdx(v.Ptr(p))) && v.Ptr(p) in v.store
            && |v.store[v.Ptr(p)]| == BLOCK_SIZE
  {
    hide At, IsPath, Gone, Bit;
    var s := v.Ptr(p);
    assert s in v.loc && v.loc[s] == p;
    assert SectorOf(BlockIdx(s)) == s;
  }

  /** Freeing the block of the one place starting at lo on level l. */
  lemma ReleaseOne(v: View, bits: Bits, lo: int, l: int, nb: int, p: Path)
    requires Ok(v) && Released(v, bits, lo, l, nb) && lo < nb
    requires IsPath(p) && First(p) == lo && Level(p) == l && v.Ptr(p) != 0
    ensures IsData(v.Ptr(p)) && Bit(bits, BlockIdx(v.Ptr(p)))
    ensures Released(v, ClearBit(bits, BlockIdx(v.Ptr(p))), lo, l + 1, nb)
  {
    hide At, IsPath, First, Level, Bit;
    StillHeld(v, bits, lo, l, nb, p);
    var s := v.Ptr(p);
    var bits' := ClearBit(bits, BlockIdx(s));
    forall b | 0 <= b < NBLOCKS
      ensures Bit(bits', b) <==> Bit(v.bits, b) && !(SectorOf(b) in v.loc && Gone(v.loc[SectorOf(b)], lo, l + 1, nb))
    {
      BitAfterClear(bits, BlockIdx(s), b);
      var t := SectorOf(b);
      assert t == s <==> b == BlockIdx(s);
      if t in v.loc {
        assert v.Ptr(v.loc[t]) == t && v.Ptr(p) == s;
        if First(v.loc[t]) == lo && Level(v.loc[t]) == l {
          StartUnique(p, v.loc[t]);
        }
      }
    }
  }

  lemma ReleasedSize(v: View, bits: Bits, lo: int, l: int, nb: int)
    requires Released(v, bits, lo, l, nb)
    ensures |bits| == MAP_BYTES
  {
  }

  /** Nothing to free at lo on level l. */
  lemma ReleaseNone(v: View, bits: Bits, lo: int, l: int, nb: int, p: Path)
    requires Ok(v) && Released(v, bits, lo, l, nb) && 0 <= lo < MAX_IDS
    requires Prefix(p, PathOf(lo)) && Level(p) == l && (First(p) != lo || v.Ptr(p) == 0)
    ensures Released(v, bits, lo, l + 1, nb)
  {
    hide Ok, At, IsPath, First, Level, PathOf, Prefix;
    forall q | IsPath(q) && v.Ptr(q) != 0 ensures Gone(q, lo, l, nb) <==> Gone(q, lo, l + 1, nb) {
      if First(q) == lo && Level(q) == l {
        StartsBelow(q);
        PathOfId(lo);
        PrefixChain(p, q, PathOf(lo));
        PrefixBounds(p, q);
      }
    }
    ReleaseSame(v, bits, lo, l, lo, l + 1, nb);
  }

  /** Skipping the whole range of an empty place. */
  lemma ReleaseSkip(v: View, bits: Bits, lo: int, nb: int, p: Path)
    requires Ok(v) && Released(v, bits, lo, 0, nb) && lo < nb && IsPath(p) && v.Ptr(p) == 0 && Covers(p, lo)
    ensures Released(v, bits, First(p), Level(p) + 1, nb)
  {
    hide Ok, At, IsPath, First, Level;
    forall q | IsPath(q) && v.Ptr(q) != 0
      ensures Gone(q, lo, 0, nb) <==> Gone(q, First(p), Level(p) + 1, nb)
    {
      LevelBound(q);
      if First(p) <= First(q) <= lo && (First(q) > First(p) || Level(q) <= Level(p)) {
        EmptyRange(v.blocks, v.store, p, q);
      }
    }
    ReleaseSame(v, bits, lo, 0, First(p), Level(p) + 1, nb);
  }

  /** Above the root pointer nothing starts at lo, so lo is finished. */
  lemma ReleaseNext(v: View, bits: Bits, lo: int, l: int, nb: int, k: int)
    requires Ok(v) && Released(v, bits, lo, l, nb) && 0 <= lo < MAX_IDS
    requires 0 <= k < ROOTS && Prefix(Root(k), PathOf(lo)) && l > Level(Root(k))
    ensures Released(v, bits, lo - 1, 0, nb)
  {
    hide Ok, At, IsPath, First, Level, PathOf;
    forall q | IsPath(q) && v.Ptr(q) != 0 ensures Gone(q, lo, l, nb) <==> Gone(q, lo - 1, 0, nb) {
      LevelBound(q);
      if First(q) == lo && Level(q) >= l {
        StartsBelow(q);
        PathOfId(lo);
        PrefixChain(q, Root(k), PathOf(lo));
        assert false;
      }
    }
    ReleaseSame(v, bits, lo, l, lo - 1, 0, nb);
  }

  lemma NotGone(lo: int, nb: int, p: Path)
    requires IsPath(p) && First(p) <= lo
    ensures !Gone(p, lo, 0, nb)
  {
    LevelBound(p);
  }

  /** Where the places above file block id start, in the singly indirect range. */
  lemma Starts1(id: int)
    requires DIRECT <= id < DIRECT + N
    ensures var p, index := PathOf(id), id - DIRECT;
            && p == Child(Root(DIRECT), index) && Level(p) == 0 && First(p) == id
            && Level(Root(DIRECT)) == 1 && First(Root(DIRECT)) == id - index && Covers(Root(DIRECT), id)
  {
  }

  lemma Starts2(id: int)
    requires DIRECT + N <= id < DIRECT + N + N * N
    ensures var p, r, index := PathOf(id), Root(DIRECT + 1), id - DIRECT - N;
            && p == Child(Child(r, index / N), index % N) && Level(p) == 0 && First(p) == id
            && Level(p.parent) == 1 && First(p.parent) == id - index % N && Covers(p.parent, id)
            && Level(r) == 2 && First(r) == id - index && Covers(r, id) && IsPath(r) && Prefix(r, p)
  {
    var index := id - DIRECT - N;
    Shape1(DIRECT + 1, index / N);
    Shape2(DIRECT + 1, index / N, index % N);
  }

  lemma PairFacts(i: int, q: Path, i2: int, i1: int)
    requires 0 <= i < MAX_IDS && PathOf(i) == Child(Child(q, i2), i1) && Level(q) == 2
    requires First(Child(q, i2)) == i - i1
    ensures var p := PathOf(i);
            && IsPath(p) && Level(p) == 0 && First(p) == i && Prefix(p, p) && IsPath(q)
            && IsPath(p.parent) && Level(p.parent) == 1 && Prefix(p.parent, p) && 0 <= i1 < N && Covers(p.parent, i)
  {
    hide PathOf;
    PathOfId(i);
    Above(PathOf(i));
    Above(PathOf(i).parent);
  }

  // The three indices of the triply indirect range, and what is left at the start of a range.
  const TRIPLE: int := DIRECT + N + N * N

  function I3(index: int): int {
    index / (N * N)
  }

  function I2(index: int): int {
    (index - I3(index) * (N * N)) / N
  }

  function I1(index: int): int {
    index % N
  }

  function Rest(index: int): int {
    index % (N * N)
  }

  /** Moving to the start of a singly indirect range stays within the same doubly indirect range. */
  lemma SameRange(index: int, index': int)
    requires 0 <= index && (index' == index || index' == index - I1(index))
    ensures 0 <= index' <= index && I3(index') == I3(index)
  {
    TwoDigits(index);
    TwoDigits(index');
    assert index' / N == index / N;
  }

  lemma Starts3(id: int)
    requires TRIPLE <= id < MAX_IDS
    ensures var p, r, index := PathOf(id), Root(DIRECT + 2), id - TRIPLE;
            && p == Child(Child(Child(r, I3(index)), I2(index)), I1(index)) && Level(p) == 0 && First(p) == id
            && Level(p.parent) == 1 && First(p.parent) == id - I1(index)
            && IsPath(p.parent.parent) && Prefix(p.parent.parent, p) && Covers(p.parent.parent, id)
            && Level(p.parent.parent) == 2 && First(p.parent.parent) == id - Rest(index)
            && IsPath(r) && Prefix(r, p) && Covers(r, id) && Level(r) == 3 && First(r) == id - index
            && 0 <= Rest(index) <= index && 0 <= I3(index) < N
  {
    hide PathOf, I1, I2, I3, Rest;
    var index, r := id - TRIPLE, Root(DIRECT + 2);
    PathOf3(id);
    Split3(index);
    Shape1(DIRECT + 2, I3(index));
    Shape2(DIRECT + 2, I3(index), I2(index));
    Shape3(I3(index), I2(index), I1(index));
    Ancestors3(r, I3(index), I2(index), I1(index));
  }

  lemma Ancestors3(x: Path, k: int, j: int, i: int)
    ensures var p := Child(Child(Child(x, k), j), i);
            Prefix(p, p) && Prefix(p.parent, p) && Prefix(p.parent.parent, p) && Prefix(x, p)
  {
    assert Prefix(x, Child(x, k));
    assert Prefix(x, Child(Child(x, k), j)) && Prefix(Child(x, k), Child(Child(x, k), j));
  }

  lemma PathOf3(id: int)
    requires TRIPLE <= id < MAX_IDS
    ensures var index := id - TRIPLE;
            PathOf(id) == Child(Child(Child(Root(DIRECT + 2), I3(index)), I2(index)), I1(index))
  {
  }

  lemma Split3(index: int)
    requires 0 <= index < N * N * N
    ensures 0 <= I3(index) < N && 0 <= I2(index) < N && 0 <= I1(index) < N
    ensures index == I3(index) * (N * N) + Rest(index) && Rest(index) == I2(index) * N + I1(index)
  {
    TwoDigits(index);
  }

  /** ROUND(size, BLOCK_SIZE) / BLOCK_SIZE */
  function BlocksIn(size: int): int {
    (size + BLOCK_SIZE - 1) / BLOCK_SIZE
  }

  lemma ReleasedStart(v: View, nb: int)
    requires Ok(v)
    ensures Released(v, v.bits, nb - 1, 0, nb)
  {
    hide At, IsPath, Bit, Level, First;
    forall s | s in v.loc ensures Level(v.loc[s]) >= 0 {
      LevelBound(v.loc[s]);
    }
  }

  lemma StartsDirect(i: int)
    requires 0 <= i < DIRECT
    ensures PathOf(i) == Root(i) && Prefix(Root(i), PathOf(i)) && Level(Root(i)) == 0 && First(Root(i)) == i
  {
  }

  /** File block numbers past the tree have no place. */
  lemma ReleaseBeyond(v: View, bits: Bits, lo: int, nb: int)
    requires Ok(v) && Released(v, bits, lo, 0, nb) && lo >= MAX_IDS
    ensures Released(v, bits, lo - 1, 0, nb)
  {
    hide Ok, At, IsPath, First, Level;
    forall q | IsPath(q) && v.Ptr(q) != 0 ensures Gone(q, lo, 0, nb) <==> Gone(q, lo - 1, 0, nb) {
      StartsBelow(q);
      LevelBound(q);
    }
    ReleaseSame(v, bits, lo, 0, lo - 1, 0, nb);
  }

  lemma EmptyOk(v: View, bits: Bits, nb: int)
    requires Ok(v) && Released(v, bits, -1, 0, nb)
    ensures Ok(View(seq(ROOTS, _ => 0), v.store, map[], bits))
  {
    var zeros := seq(ROOTS, _ => 0);
    forall p | IsPath(p) ensures At(zeros, v.store, p) == 0 {
      EmptyRoots(zeros, v.store, p);
    }
    hide Bit;
  }

  lemma {:induction false} EmptyRoots(zeros: seq<int>, store: Store, p: Path)
    requires zeros == seq(ROOTS, _ => 0)
    ensures At(zeros, store, p) == 0
  {
    if p.Child? {
      EmptyRoots(zeros, store, p.parent);
    }
  }

  /** All blocks of the inode are free again, and no other block changed. */
  ghost predicate ExactlyFreed(v: View, bits: Bits) {
    && |bits| == |v.bits| == MAP_BYTES
    && (forall s :: s in v.loc ==> IsData(s) && !Bit(bits, BlockIdx(s)))
    && (forall b :: 0 <= b < NBLOCKS && SectorOf(b) !in v.loc ==> (Bit(bits, b) <==> Bit(v.bits, b)))
  }

  /** The teardown gives back all blocks of the inode exactly when every place it uses starts within the file. */
  lemma NothingLeaksIff(v: View, bits: Bits, nb: int)
    requires Ok(v) && Released(v, bits, -1, 0, nb)
    ensures ExactlyFreed(v, bits) <==> Within(v.loc, nb)
  {
    hide At, IsPath, First, Level, Bit;
    forall s | s in v.loc ensures IsData(s) && (!Bit(bits, BlockIdx(s)) <==> First(v.loc[s]) < nb) {
      assert SectorOf(BlockIdx(s)) == s;
      StartsBelow(v.loc[s]);
    }
  }

  // ---------------------------------------------------------------- file contents

  ghost predicate IsMapped(v: View, id: int) {
    0 <= id < MAX_IDS && v.Ptr(PathOf(id)) != 0
  }

  /** What reading file block id yields; an unmapped one reads from sector 0. */
  ghost function Data(v: View, id: int): Block
    requires Ok(v) && 0 <= id < MAX_IDS
  {
    PtrInStore(v, id);
    v.store[v.Ptr(PathOf(id))]
  }

  lemma PtrInStore(v: View, id: int)
    requires Ok(v) && 0 <= id < MAX_IDS
    ensures v.Ptr(PathOf(id)) in v.store && IsBlock(v.store[v.Ptr(PathOf(id))])
    ensures IsMapped(v, id) ==>
              v.Ptr(PathOf(id)) in v.loc && v.loc[v.Ptr(PathOf(id))] == PathOf(id) && Level(PathOf(id)) == 0
  {
    hide At, PathOf, IsPath, Level;
    PathOfId(id);
  }

  /** Mapping one file block maps no other and moves none. */
  lemma MappedOthers(v: View, w: View, id: int, j: int)
    requires Ok(v) && Ok(w) && 0 <= id < MAX_IDS && 0 <= j < MAX_IDS && Mapped(v, w, PathOf(id))
    ensures IsMapped(w, id) && Data(w, id) == ZeroBlock()
    ensures j != id ==> w.Ptr(PathOf(j)) == v.Ptr(PathOf(j))
    ensures j != id ==> Data(w, j) == Data(v, j)
  {
    hide Ok, At, PathOf, IsPath, First, Level, Bit;
    PathOfId(id);
    PathOfId(j);
    if j != id && Prefix(PathOf(j), PathOf(id)) {
      PrefixBounds(PathOf(j), PathOf(id));
    }
    if j != id {
      PtrInStore(v, j);
      if !IsMapped(v, j) {
        SectorZero(w);
      }
    }
  }

  lemma SectorZero(w: View)
    requires Ok(w)
    ensures 0 !in w.loc
  {
  }

  /** Writing a mapped file block's data changes that block and nothing else. */
  lemma PutData(v: View, id: int, b: Block, j: int)
    requires Ok(v) && IsMapped(v, id) && IsBlock(b) && 0 <= j < MAX_IDS
    ensures var w := v.(store := v.store[v.Ptr(PathOf(id)) := b]);
            && Ok(w) && w.Ptr(PathOf(j)) == v.Ptr(PathOf(j)) && Data(w, j) == if j == id then b else Data(v, j)
  {
    hide At, PathOf, Level, IsPath, IsBlock;
    PtrInStore(v, id);
    PtrInStore(v, j);
    PathOfId(id);
    PathOfId(j);
    TreeFrame(v.blocks, v.store, v.store[v.Ptr(PathOf(id)) := b], v.loc);
  }

  // ---------------------------------------------------------------- how many blocks a write takes

  /** The places from the root down to p. */
  ghost function Places(p: Path): set<Path> {
    {p} + if p.Child? then Places(p.parent) else {}
  }

  lemma {:induction false} PlacesArePrefixes(p: Path, q: Path)
    ensures q in Places(p) <==> Prefix(q, p)
  {
    if p.Child? {
      PlacesArePrefixes(p.parent, q);
    }
  }

  /** The empty ones among them. */
  ghost function Lacks(v: View, p: Path): set<Path> {
    set q | q in Places(p) && v.Ptr(q) == 0
  }

  lemma LacksStep(v: View, p: Path)
    requires IsPath(p) && p.Child?
    ensures p !in Lacks(v, p.parent) && Lacks(v, p) == Lacks(v, p.parent) + if v.Ptr(p) == 0 then {p} else {}
  {
    hide At, IsPath, Level, First, Prefix;
    PlacesArePrefixes(p.parent, p);
    Above(p);
    if Prefix(p, p.parent) {
      PrefixBounds(p, p.parent);
    }
  }

  /** One allocation takes a block for each. */
  lemma {:induction false} MissingIs(v: View, p: Path)
    requires IsPath(p)
    ensures |Lacks(v, p)| == Missing(v, p)
  {
    hide At, IsPath, Places;
    if p.Child? {
      Above(p);
      MissingIs(v, p.parent);
      LacksStep(v, p);
    } else {
      LacksRoot(v, p);
    }
  }

  lemma LacksRoot(v: View, p: Path)
    requires p.Root?
    ensures Lacks(v, p) == if v.Ptr(p) == 0 then {p} else {}
  {
  }

  /** The empty places on the ways to file blocks lo to hi: what a write to them has to fill. */
  ghost function Gaps(v: View, lo: int, hi: int): set<Path>
    requires 0 <= lo && hi < MAX_IDS
    decreases hi - lo
  {
    if lo > hi then {} else Lacks(v, PathOf(lo)) + Gaps(v, lo + 1, hi)
  }

  lemma {:induction false} GapsIn(v: View, lo: int, hi: int, q: Path)
    requires 0 <= lo && hi < MAX_IDS
    ensures q in Gaps(v, lo, hi) <==> v.Ptr(q) == 0 && exists id :: lo <= id <= hi && Prefix(q, PathOf(id))
    decreases hi - lo
  {
    hide At, PathOf, Prefix;
    if lo <= hi {
      GapsIn(v, lo + 1, hi, q);
      PlacesArePrefixes(PathOf(lo), q);
    }
  }

  /** How many blocks that is. */
  ghost function Need(v: View, lo: int, hi: int): nat
    requires 0 <= lo && hi < MAX_IDS
  {
    |Gaps(v, lo, hi)|
  }

  /** Mapping a file block fills the empty places on its way, and no other. */
  lemma FilledAt(v: View, w: View, p: Path, q: Path)
    requires Mapped(v, w, p) && IsPath(q) && IsPath(p)
    ensures w.Ptr(q) == 0 <==> v.Ptr(q) == 0 && q !in Lacks(v, p)
  {
    hide At;
    PlacesArePrefixes(p, q);
    if Prefix(q, p) && w.Ptr(q) == 0 {
      EmptyBelow(w.blocks, w.store, q, p);
    }
  }

  lemma GapsFilled(v: View, w: View, p: Path, lo: int, hi: int)
    requires Mapped(v, w, p) && IsPath(p) && 0 <= lo && hi < MAX_IDS
    ensures Gaps(w, lo, hi) == Gaps(v, lo, hi) - Lacks(v, p)
  {
    hide At, PathOf, Prefix, IsPath, Mapped, Lacks, Gaps;
    forall q ensures q in Gaps(w, lo, hi) <==> q in Gaps(v, lo, hi) - Lacks(v, p) {
      GapsIn(v, lo, hi, q);
      GapsIn(w, lo, hi, q);
      if exists id :: lo <= id <= hi && Prefix(q, PathOf(id)) {
        var id :| lo <= id <= hi && Prefix(q, PathOf(id));
        PathOfId(id);
        PrefixBounds(q, PathOf(id));
        FilledAt(v, w, p, q);
      }
    }
  }

  /** Mapping the first of a range takes exactly the difference. */
  lemma NeedStep(v: View, w: View, lo: int, hi: int)
    requires 0 <= lo <= hi < MAX_IDS && Mapped(v, w, PathOf(lo))
    ensures Need(v, lo, hi) == Missing(v, PathOf(lo)) + Need(w, lo + 1, hi)
  {
    hide At, PathOf, IsPath, Mapped, Lacks;
    PathOfId(lo);
    MissingIs(v, PathOf(lo));
    GapsFilled(v, w, PathOf(lo), lo + 1, hi);
    Union(Lacks(v, PathOf(lo)), Gaps(v, lo + 1, hi));
  }

  lemma Union(a: set<Path>, b: set<Path>)
    ensures |a + b| == |a| + |b - a|
  {
    assert a + b == a + (b - a);
  }

  lemma NeedNone(v: View, lo: int, hi: int)
    requires 0 <= lo && hi < lo && hi < MAX_IDS
    ensures Need(v, lo, hi) == 0
  {
  }

  lemma NeedAtLeast(v: View, lo: int, hi: int)
    requires 0 <= lo <= hi < MAX_IDS
    ensures Missing(v, PathOf(lo)) <= Need(v, lo, hi)
  {
    hide At, PathOf, IsPath, Lacks;
    PathOfId(lo);
    MissingIs(v, PathOf(lo));
    Union(Lacks(v, PathOf(lo)), Gaps(v, lo + 1, hi));
  }

  /** A mapped block needs nothing. */
  lemma NeedMapped(v: View, lo: int, hi: int)
    requires 0 <= lo <= hi < MAX_IDS && IsMapped(v, lo)
    ensures Need(v, lo, hi) == Need(v, lo + 1, hi)
  {
    hide At, PathOf, Prefix;
    forall q ensures q !in Lacks(v, PathOf(lo)) {
      PlacesArePrefixes(PathOf(lo), q);
      if Prefix(q, PathOf(lo)) && v.Ptr(q) == 0 {
        EmptyBelow(v.blocks, v.store, q, PathOf(lo));
      }
    }
    assert Lacks(v, PathOf(lo)) == {};
    assert Gaps(v, lo, hi) == Gaps(v, lo + 1, hi);
  }

  lemma NeedSame(v: View, w: View, lo: int, hi: int)
    requires 0 <= lo && hi < MAX_IDS && forall q :: IsPath(q) ==> w.Ptr(q) == v.Ptr(q)
    ensures Need(w, lo, hi) == Need(v, lo, hi)
  {
    hide At, IsPath, Gaps;
    GapsSame(v, w, lo, hi);
  }

  /** Writing a mapped file block's data moves no pointer. */
  lemma PutPointers(v: View, id: int, b: Block)
    requires Ok(v) && IsMapped(v, id) && IsBlock(b)
    ensures v.Ptr(PathOf(id)) in v.loc
    ensures var w := v.(store := v.store[v.Ptr(PathOf(id)) := b]); forall q :: IsPath(q) ==> w.Ptr(q) == v.Ptr(q)
  {
    hide At, PathOf, Level, IsPath, IsBlock;
    PtrInStore(v, id);
    PathOfId(id);
    TreeFrame(v.blocks, v.store, v.store[v.Ptr(PathOf(id)) := b], v.loc);
  }

  /** Data blocks do not matter. */
  lemma {:induction false} GapsSame(v: View, w: View, lo: int, hi: int)
    requires 0 <= lo && hi < MAX_IDS && forall q :: IsPath(q) ==> w.Ptr(q) == v.Ptr(q)
    ensures Gaps(w, lo, hi) == Gaps(v, lo, hi)
    decreases hi - lo
  {
    hide At, PathOf, IsPath, Prefix;
    if lo <= hi {
      GapsSame(v, w, lo + 1, hi);
      PathOfId(lo);
      forall q | q in Places(PathOf(lo)) ensures w.Ptr(q) == v.Ptr(q) {
        PlacesArePrefixes(PathOf(lo), q);
        PrefixBounds(q, PathOf(lo));
      }
      assert Lacks(w, PathOf(lo)) == Lacks(v, PathOf(lo));
    }
  }

  /** The last file block a write of n bytes at p0 touches; even of none it touches the one at p0. */
  function LastBlock(p0: int, n: int): int {
    if n == 0 then p0 / BLOCK_SIZE else (p0 + n - 1) / BLOCK_SIZE
  }

  // ---------------------------------------------------------------- what lies beside the file

  /** Between v and w the file has only grown by blocks that were free; every other bit and sector is as it was. */
  ghost predicate Beside(v: View, w: View) {
    && |w.bits| == |v.bits| == MAP_BYTES
    && (forall t :: t in v.loc ==> t in w.loc && w.loc[t] == v.loc[t])
    && (forall t :: t in w.loc && t !in v.loc ==> IsData(t) && !Bit(v.bits, BlockIdx(t)))
    && (forall b :: 0 <= b < NBLOCKS ==> (Bit(w.bits, b) <==> Bit(v.bits, b) || SectorOf(b) in w.loc))
    && (forall t :: t in v.store ==> t in w.store)
    && (forall t :: t in v.store && t !in w.loc ==> w.store[t] == v.store[t])
  }

  lemma BesideSelf(v: View)
    requires Ok(v)
    ensures Beside(v, v)
  {
    hide At, Bit;
    GrewNone(v, Root(0));
  }

  lemma BesideGrew(v: View, w: View, w': View, p: Path)
    requires Beside(v, w) && Grew(w, w', p)
    ensures Beside(v, w')
  {
    hide At, Prefix, IsPath, Level, Bit;
    forall t | t in w'.loc && t !in v.loc ensures IsData(t) && !Bit(v.bits, BlockIdx(t)) {
      if t !in w.loc {
        assert SectorOf(BlockIdx(t)) == t;
      }
    }
  }

  lemma BesidePut(v: View, w: View, s: int, b: Block)
    requires Beside(v, w) && s in w.loc
    ensures Beside(v, w.(store := w.store[s := b]))
  {
    hide Bit;
  }

  /** Byte k of file block id once the bytes up to position `upto` of a write of `buff` at p0 have
      landed on a file that was v0: written bytes, old bytes, and zeros in blocks that are new. */
  ghost function Want(v0: View, p0: int, buff: seq<int>, upto: int, id: int, k: int): int
    requires Ok(v0) && 0 <= id < MAX_IDS && 0 <= k < BLOCK_SIZE && p0 <= upto <= p0 + |buff|
  {
    var q := id * BLOCK_SIZE + k;
    if p0 <= q < upto then buff[q - p0] else if IsMapped(v0, id) then OldByte(v0, id, k) else 0
  }

  ghost function OldByte(v: View, id: int, k: int): int
    requires Ok(v) && 0 <= id < MAX_IDS && 0 <= k < BLOCK_SIZE
  {
    PtrInStore(v, id);
    Data(v, id)[k]
  }

  ghost predicate Holds(b: Block, v0: View, p0: int, buff: seq<int>, upto: int, id: int)
    requires Ok(v0) && 0 <= id < MAX_IDS && p0 <= upto <= p0 + |buff|
  {
    IsBlock(b) && forall k :: 0 <= k < BLOCK_SIZE ==> b[k] == Want(v0, p0, buff, upto, id, k)
  }

  /** The write has progressed to `upto`; block `cur` (or -1) is still in the buffer. */
  ghost predicate Wrote(v0: View, w: View, p0: int, buff: seq<int>, upto: int, cur: int) {
    && Ok(v0) && Ok(w) && 0 <= p0 <= upto <= p0 + |buff| && p0 + |buff| <= MAX_IDS * BLOCK_SIZE
    && (forall id :: IsMapped(w, id) && id != cur ==> Holds(Data(w, id), v0, p0, buff, upto, id))
    && (forall id :: IsMapped(v0, id) ==> IsMapped(w, id))
    && (forall id :: p0 < upto && p0 / BLOCK_SIZE <= id && id * BLOCK_SIZE < upto ==> IsMapped(w, id))
    && (forall id :: IsMapped(w, id) && !IsMapped(v0, id) ==> p0 / BLOCK_SIZE <= id <= LastBlock(p0, |buff|))
  }

  lemma WroteStart(v: View, p0: int, buff: seq<int>)
    requires Ok(v) && 0 <= p0 && p0 + |buff| <= MAX_IDS * BLOCK_SIZE
    ensures Wrote(v, v, p0, buff, p0, -1)
  {
    hide Ok, Data, At, PathOf, IsBlock;
    forall id | IsMapped(v, id) ensures Holds(Data(v, id), v, p0, buff, p0, id) {
      PtrInStore(v, id);
      DataIs(v, id);
    }
  }

  lemma DataIs(v: View, id: int)
    requires Ok(v) && 0 <= id < MAX_IDS
    ensures v.Ptr(PathOf(id)) in v.store && Data(v, id) == v.store[v.Ptr(PathOf(id))] && IsBlock(Data(v, id))
    ensures forall k :: 0 <= k < BLOCK_SIZE ==> OldByte(v, id, k) == Data(v, id)[k]
  {
    hide Ok, At, PathOf;
    PtrInStore(v, id);
  }

  /** A block mapped on the way starts as zeros, which is what the write wants there. */
  lemma LoadKeeps(v0: View, w: View, w': View, p0: int, buff: seq<int>, upto: int, id: int)
    requires Wrote(v0, w, p0, buff, upto, -1) && Ok(w') && 0 <= id < MAX_IDS && Mapped(w, w', PathOf(id))
             && !IsMapped(w, id)
    requires p0 / BLOCK_SIZE <= id <= LastBlock(p0, |buff|)
    ensures Wrote(v0, w', p0, buff, upto, -1) && IsMapped(w', id)
  {
    hide Ok, Data, At, PathOf, Mapped, OldByte;
    MappedOthers(w, w', id, id);
    forall j | 0 <= j < MAX_IDS && j != id
      ensures (IsMapped(w', j) <==> IsMapped(w, j)) && Data(w', j) == Data(w, j)
    {
      MappedOthers(w, w', id, j);
    }
    forall j | IsMapped(w', j) ensures Holds(Data(w', j), v0, p0, buff, upto, j) {
      if j == id {
        ZeroWords(0);
      }
    }
  }

  lemma WroteBuffered(v0: View, w: View, p0: int, buff: seq<int>, upto: int, cur: int)
    requires Wrote(v0, w, p0, buff, upto, cur) || Wrote(v0, w, p0, buff, upto, -1)
    ensures Wrote(v0, w, p0, buff, upto, cur)
  {
  }

  lemma WroteMaps(v0: View, w: View, p0: int, buff: seq<int>)
    requires Wrote(v0, w, p0, buff, p0 + |buff|, -1) && buff != []
    ensures IsMapped(w, p0 / BLOCK_SIZE)
  {
    hide Ok, IsMapped, Holds, Data;
  }

  lemma WroteHolds(v0: View, w: View, p0: int, buff: seq<int>, upto: int, id: int)
    requires Wrote(v0, w, p0, buff, upto, -1) && IsMapped(w, id)
    ensures Holds(Data(w, id), v0, p0, buff, upto, id)
  {
  }

  /** One byte into the buffer advances the write; only the buffered block is affected. */
  lemma StepKeeps(v0: View, w: View, p0: int, buff: seq<int>, upto: int, cur: int)
    requires Wrote(v0, w, p0, buff, upto, cur) || Wrote(v0, w, p0, buff, upto, -1)
    requires upto < p0 + |buff| && cur == upto / BLOCK_SIZE && IsMapped(w, cur)
    ensures Wrote(v0, w, p0, buff, upto + 1, cur)
  {
    hide Ok, Data, At, PathOf, IsBlock, OldByte;
    forall id | IsMapped(w, id) && id != cur ensures Holds(Data(w, id), v0, p0, buff, upto + 1, id) {
      forall k | 0 <= k < BLOCK_SIZE
        ensures Want(v0, p0, buff, upto + 1, id, k) == Want(v0, p0, buff, upto, id, k)
      {
      }
    }
  }

  lemma StepBuffer(b: Block, v0: View, p0: int, buff: seq<int>, upto: int, cur: int)
    requires Ok(v0) && 0 <= p0 <= upto < p0 + |buff| && 0 <= cur < MAX_IDS && cur == upto / BLOCK_SIZE
    requires Holds(b, v0, p0, buff, upto, cur) && 0 <= buff[upto - p0] < 256
    ensures Holds(b[upto % BLOCK_SIZE := buff[upto - p0]], v0, p0, buff, upto + 1, cur)
  {
    hide Ok, Data, At, PathOf, OldByte;
  }

  /** Writing the buffer back puts the buffered block in line with the others. */
  lemma FlushKeeps(v0: View, w: View, p0: int, buff: seq<int>, upto: int, cur: int, b: Block)
    requires Wrote(v0, w, p0, buff, upto, cur) && IsMapped(w, cur) && Holds(b, v0, p0, buff, upto, cur)
    ensures Wrote(v0, w.(store := w.store[w.Ptr(PathOf(cur)) := b]), p0, buff, upto, -1)
  {
    hide Ok, Data, At, PathOf, OldByte;
    var w' := w.(store := w.store[w.Ptr(PathOf(cur)) := b]);
    PutData(w, cur, b, cur);
    forall j | 0 <= j < MAX_IDS
      ensures (IsMapped(w', j) <==> IsMapped(w, j)) && Data(w', j) == if j == cur then b else Data(w, j)
    {
      PutData(w, cur, b, j);
    }
  }

  /** The byte at a file position. */
  ghost function FileByte(v: View, pos: int): int
    requires Ok(v) && 0 <= pos < MAX_IDS * BLOCK_SIZE
  {
    OldByte(v, pos / BLOCK_SIZE, pos % BLOCK_SIZE)
  }

  /** A finished write, byte by byte: the written range, every other mapped byte, and the rest of new blocks. */
  lemma WriteBytes(v0: View, w: View, p0: int, buff: seq<int>, pos: int)
    requires Wrote(v0, w, p0, buff, p0 + |buff|, -1) && 0 <= pos < MAX_IDS * BLOCK_SIZE
    ensures p0 <= pos < p0 + |buff| ==> FileByte(w, pos) == buff[pos - p0]
    ensures !(p0 <= pos < p0 + |buff|) && IsMapped(v0, pos / BLOCK_SIZE) ==> FileByte(w, pos) == FileByte(v0, pos)
    ensures !(p0 <= pos < p0 + |buff|) && !IsMapped(v0, pos / BLOCK_SIZE) && IsMapped(w, pos / BLOCK_SIZE) ==>
              FileByte(w, pos) == 0
  {
    hide Ok, At, PathOf, Data, OldByte, IsMapped;
    var id, k := pos / BLOCK_SIZE, pos % BLOCK_SIZE;
    DataIs(w, id);
    if IsMapped(w, id) {
      assert Holds(Data(w, id), v0, p0, buff, p0 + |buff|, id);
      assert Data(w, id)[k] == Want(v0, p0, buff, p0 + |buff|, id, k);
    }
  }

  /** Reading the range of a finished write yields its bytes. */
  lemma ReadsBack(v0: View, w: View, p0: int, buff: seq<int>, back: seq<int>)
    requires Wrote(v0, w, p0, buff, p0 + |buff|, -1) && 0 <= p0 && p0 + |buff| <= MAX_IDS * BLOCK_SIZE
             && |back| == |buff|
    requires forall i :: 0 <= i < |back| ==> back[i] == FileByte(w, p0 + i)
    ensures back == buff
  {
    hide Wrote, FileByte;
    WroteOk(v0, w, p0, buff);
    forall i | 0 <= i < |buff| ensures back[i] == buff[i] {
      WriteBytes(v0, w, p0, buff, p0 + i);
    }
  }

  lemma WroteOk(v0: View, w: View, p0: int, buff: seq<int>)
    requires Wrote(v0, w, p0, buff, p0 + |buff|, -1)
    ensures Ok(w)
  {
  }

  /** Every place in use starts below file block `bound`. */
  ghost predicate Within(loc: map<int, Path>, bound: int) {
    forall s :: s in loc ==> First(loc[s]) < bound
  }

  function Max(a: int, b: int): int {
    if a < b then b else a
  }

  lemma WithinMax(loc: map<int, Path>, a: int, b: int)
    ensures Within(loc, a) ==> Within(loc, Max(a, b))
  {
  }

  lemma GrewWithin(v: View, w: View, p: Path, bound: int)
    requires Grew(v, w, p) && Within(v.loc, bound) && IsPath(p) && First(p) < bound
    ensures Within(w.loc, bound)
  {
    hide At, IsPath, First, Bit, Level;
    forall s | s in w.loc ensures First(w.loc[s]) < bound {
      if s !in v.loc {
        PrefixBounds(w.loc[s], p);
      }
    }
  }

  /** After a write the places in use are within the file again, unless it wrote nothing at a block boundary at or
      past the end: then the block it fetched lies behind the file. */
  lemma WithinAfterWrite(w: View, p0: int, n: nat, size: int)
    requires Ok(w) && 0 <= p0 && IsMapped(w, p0 / BLOCK_SIZE)
    requires Within(w.loc, Max(BlocksIn(size), LastBlock(p0, n) + 1))
    ensures Within(w.loc, BlocksIn(Max(size, p0 + n))) <==> n != 0 || p0 < size || p0 % BLOCK_SIZE != 0
  {
    hide Ok, At, PathOf, First;
    PtrInStore(w, p0 / BLOCK_SIZE);
    PathOfId(p0 / BLOCK_SIZE);
  }

  /** The data blocks, and sector 0 as number -1. */
  function SlotSector(b: int): int {
    if b == -1 then 0 else SectorOf(b)
  }

  function FormattedStore(): Store {
    map b | -1 <= b < NBLOCKS :: SlotSector(b) := ZeroBlock()
  }

  lemma FormattedOk()
    ensures Ok(View(seq(ROOTS, _ => 0), FormattedStore(), map[], seq(MAP_BYTES, _ => 0)))
  {
    var store := FormattedStore();
    ZeroWords(0);
    forall s | IsData(s) || s == 0 ensures s in store && IsBlock(store[s]) {
      assert SlotSector(if s == 0 then -1 else BlockIdx(s)) == s;
    }
    var zeros := seq(ROOTS, _ => 0);
    forall p | IsPath(p) ensures At(zeros, store, p) == 0 {
      EmptyRoots(zeros, store, p);
    }
  }

  lemma NoneTaken()
    ensures FreeCount(seq(MAP_BYTES, _ => 0), NBLOCKS) == NBLOCKS
  {
    var m: Bits := seq(MAP_BYTES, _ => 0);
    forall i | 0 <= i < NBLOCKS ensures !Bit(m, i) {
      assert !Test(0, i % 8);
    }
    FreeCountAll(m, NBLOCKS);
  }

  /** A file of size 0 gives nothing back. */
  lemma LeakedAll(v: View, bits: Bits)
    requires Ok(v) && Released(v, bits, -1, 0, 0)
    ensures FreeCount(bits, NBLOCKS) == FreeCount(v.bits, NBLOCKS)
  {
    hide At, IsPath, First, Level, Bit;
    forall s | s in v.loc ensures First(v.loc[s]) >= 0 {
      StartsBelow(v.loc[s]);
    }
    FreeCountSame(bits, v.bits, NBLOCKS);
  }

  /** The first block of an empty file lacks one place. */
  lemma NeedFirst(v: View)
    requires Ok(v) && v.blocks == seq(ROOTS, _ => 0)
    ensures Need(v, 0, 0) == 1
  {
    assert Gaps(v, 0, 0) == {Root(0)};
  }

  class Fs {
    var blocks: seq<int>                  // inode->blocks
    var size: int                         // inode->size
    var store: Store
    var bits: Bits                        // block_map
    var rdata: Block                      // rdata_buffer
    var wdata: Block                      // wdata_buffer
    var readPos: int                      // the descriptor's positions
    var writePos: int
    ghost var loc: map<int, Path>

    ghost function V(): View
      reads this
    {
      View(blocks, store, loc, bits)
    }

    ghost predicate Valid()
      reads this
    {
      Ok(V()) && |bits| == MAP_BYTES && |rdata| == BLOCK_SIZE && |wdata| == BLOCK_SIZE
    }

    /** A new file on a freshly formatted disk. */
    constructor ()
      ensures Valid() && loc == map[] && size == 0 && readPos == writePos == 0
      ensures FreeCount(bits, NBLOCKS) == NBLOCKS && blocks == seq(ROOTS, _ => 0)
    {
      blocks, size, readPos, writePos := seq(ROOTS, _ => 0), 0, 0, 0;
      rdata, wdata := ZeroBlock(), ZeroBlock();
      bits := seq(MAP_BYTES, _ => 0);
      store := FormattedStore();
      loc := map[];
      FormattedOk();
      NoneTaken();
    }

    /** `find_free_block`; note that it clears `rdata_buffer`. */
    method FindFreeBlock() returns (s: int)
      requires Valid()
      modifies this`bits, this`store, this`rdata
      ensures s == FAIL <==> old(FreeCount(bits, NBLOCKS)) == 0
      ensures s == FAIL ==> bits == old(bits) && store == old(store) && rdata == old(rdata)
      ensures s != FAIL ==> IsData(s) && !Bit(old(bits), BlockIdx(s)) && bits == SetBit(old(bits), BlockIdx(s))
      ensures s != FAIL ==> forall b :: 0 <= b < BlockIdx(s) ==> Bit(old(bits), b)
      ensures s != FAIL ==> store == old(store)[s := ZeroBlock()] && rdata == ZeroBlock()
      ensures s != FAIL ==> FreeCount(bits, NBLOCKS) == old(FreeCount(bits, NBLOCKS)) - 1
    {
      hide Tree, Bit;
      var b := FindFree(bits, MAP_BYTES, NBLOCKS);
      FreeCountPositive(bits, NBLOCKS);
      if b == -1 {
        return FAIL;
      }
      FreeCountSet(bits, NBLOCKS, b);
      bits := SetBit(bits, b);
      s := SectorOf(b);
      assert BlockIdx(s) == b;
      rdata := ZeroBlock();
      store := store[s := rdata];
    }

    /** `blockid2sector`: the sector of a file block, 0 if it has none. */
    method BlockId2Sector(id: int) returns (s: int)
      requires Valid() && 0 <= id
      modifies this`rdata
      ensures Valid()
      ensures id < MAX_IDS ==> s == V().Ptr(PathOf(id))
      ensures id >= MAX_IDS ==> s == FAIL
    {
      hide Ok, At;
      if id < DIRECT {
        RootPtr(V(), id);
        return blocks[id];
      }
      if id < DIRECT + N {
        RootPtr(V(), DIRECT);
        Shape1(DIRECT, id - DIRECT);
        PtrStep(V(), Root(DIRECT), id - DIRECT);
        if blocks[DIRECT] == 0 {
          return 0;
        }
        rdata := store[blocks[DIRECT]];
        return Word(rdata, id - DIRECT);
      }
      if id < DIRECT + N + N * N {
        var index := id - DIRECT - N;
        RootPtr(V(), DIRECT + 1);
        Shape1(DIRECT + 1, index / N);
        Shape2(DIRECT + 1, index / N, index % N);
        PtrStep(V(), Root(DIRECT + 1), index / N);
        PtrStep(V(), Child(Root(DIRECT + 1), index / N), index % N);
        if blocks[DIRECT + 1] == 0 {
          return 0;
        }
        rdata := store[blocks[DIRECT + 1]];
        var lv1 := Word(rdata, index / N);
        if lv1 == 0 {
          return 0;
        }
        rdata := store[lv1];
        return Word(rdata, index % N);
      }
      if id < MAX_IDS {
        var index := id - DIRECT - N - N * N;
        var i3 := index / (N * N);
        var i2 := (index - i3 * (N * N)) / N;
        Shape1(DIRECT + 2, i3);
        Shape2(DIRECT + 2, i3, i2);
        Shape3(i3, i2, index % N);
        RootPtr(V(), DIRECT + 2);
        PtrStep(V(), Root(DIRECT + 2), i3);
        PtrStep(V(), Child(Root(DIRECT + 2), i3), i2);
        PtrStep(V(), Child(Child(Root(DIRECT + 2), i3), i2), index % N);
        if blocks[DIRECT + 2] == 0 {
          return 0;
        }
        rdata := store[blocks[DIRECT + 2]];
        var lv2 := Word(rdata, i3);
        if lv2 == 0 {
          return 0;
        }
        rdata := store[lv2];
        var lv1 := Word(rdata, i2);
        if lv1 == 0 {
          return 0;
        }
        rdata := store[lv1];
        return Word(rdata, index % N);
      }
      return FAIL;
    }

    /** `inode->blocks[k] = find_free_block()` for an empty pointer; on a full disk the pointer becomes -1. */
    method AllocRoot(k: int, ghost top: Path)
      requires Valid() && 0 <= k < ROOTS && V().Ptr(Root(k)) == 0 && Prefix(Root(k), top)
      modifies this`bits, this`store, this`rdata, this`blocks, this`loc
      ensures |bits| == MAP_BYTES && |rdata| == BLOCK_SIZE && |blocks| == ROOTS
      ensures old(FreeCount(bits, NBLOCKS)) > 0 ==>
                && Valid() && Grew(old(V()), V(), top) && FreeCount(bits, NBLOCKS) == old(FreeCount(bits, NBLOCKS)) - 1
                && V().Ptr(Root(k)) == blocks[k] != FAIL && Fresh(old(V()), V(), Root(k))
      ensures old(FreeCount(bits, NBLOCKS)) == 0 ==> blocks[k] == FAIL && Spoilt(old(V()), V(), Root(k))
    {
      hide Ok, At, Grew, CanGraft, Prefix, Bit, SetBit;
      ghost var v := V();
      RootPtr(v, k);
      var s := FindFreeBlock();
      if s == FAIL {
        blocks := blocks[k := s];
        RootSpoils(v, V(), k);
        return;
      }
      GraftEffect(v, Root(k), s, top);
      blocks := blocks[k := s];
      loc := loc[s := Root(k)];
      assert V() == Graft(v, Root(k), s);
      RootPtr(V(), k);
    }

    /** Filling entry i of the pointer block t, re-read after `find_free_block` has cleared the buffer; on a full disk
        the entry becomes -1. */
    method AllocEntry(t: int, i: int, ghost q: Path, ghost top: Path)
      requires Valid() && IsPath(Child(q, i)) && Prefix(Child(q, i), top)
      requires t != 0 && V().Ptr(q) == t && V().Ptr(Child(q, i)) == 0
      modifies this`bits, this`store, this`rdata, this`loc
      ensures |bits| == MAP_BYTES && |rdata| == BLOCK_SIZE && t in store && rdata == store[t] && 0 <= i < N
      ensures old(FreeCount(bits, NBLOCKS)) > 0 ==>
                && Valid() && Grew(old(V()), V(), top) && FreeCount(bits, NBLOCKS) == old(FreeCount(bits, NBLOCKS)) - 1
                && Fresh(old(V()), V(), Child(q, i)) && V().Ptr(Child(q, i)) == Word(rdata, i) != FAIL
      ensures old(FreeCount(bits, NBLOCKS)) == 0 ==> Word(rdata, i) == FAIL && Spoilt(old(V()), V(), Child(q, i))
    {
      hide Ok, At, Grew, CanGraft, Prefix, Bit, SetBit, SetWord, Word;
      ghost var v := V();
      PtrStep(v, q, i);
      Above(Child(q, i));
      var s := FindFreeBlock();
      WordAfterSet(v.store[t], i, s, i);
      if s == FAIL {
        rdata := SetWord(store[t], i, s);
        store := store[t := rdata];
        EntrySpoils(v, V(), q, i);
        return;
      }
      GraftEffect(v, Child(q, i), s, top);
      GraftChild(v, Child(q, i), s);
      rdata := store[t];
      rdata := SetWord(rdata, i, s);
      store := store[t := rdata];
      loc := loc[s := Child(q, i)];
      assert V() == Graft(v, Child(q, i), s);
    }

    /** The pointer block for entry i of t: what the buffer says, or a fresh one, or -1 if there is none. */
    method Descend(t: int, i: int, ghost q: Path, ghost top: Path, ghost v: View) returns (s: int)
      requires Valid() && Built(v, V(), q, top) && IsPath(Child(q, i)) && Prefix(Child(q, i), top)
      requires V().Ptr(q) == t
      modifies this`bits, this`store, this`rdata, this`loc
      ensures |bits| == MAP_BYTES && |rdata| == BLOCK_SIZE
      ensures s == FAIL <==> Missing(v, Child(q, i)) > FreeCount(v.bits, NBLOCKS)
      ensures s != FAIL ==> Valid() && Built(v, V(), Child(q, i), top) && V().Ptr(Child(q, i)) == s
      ensures s == FAIL ==> Ruined(v, V(), top)
    {
      hide Ok, At, Grew, Prefix, Bit, Spoilt, Fresh, Ruined, Missing, FreeCount, Word, Outcome;
      ghost var u := V();
      PtrStep(u, q, i);
      BelowBuilt(v, u, q, i, top);
      rdata := store[t];
      if Word(rdata, i) == 0 {
        AllocEntry(t, i, q, top);
        if FreeCount(u.bits, NBLOCKS) == 0 {
          BuiltRuins(v, u, V(), q, i, top);
        } else {
          BuiltFresh(v, u, V(), q, i, top);
        }
      } else {
        BuiltDown(v, u, q, i, top);
        NeverFail(u, Child(q, i));
      }
      s := Word(rdata, i);
    }
    /** The same for an inode pointer. */
    method RootBlock(k: int, ghost top: Path) returns (s: int)
      requires Valid() && 0 <= k < ROOTS && Prefix(Root(k), top)
      modifies this`bits, this`store, this`rdata, this`blocks, this`loc
      ensures |bits| == MAP_BYTES && |rdata| == BLOCK_SIZE
      ensures s == FAIL <==> old(Missing(V(), Root(k)) > FreeCount(bits, NBLOCKS))
      ensures s != FAIL ==> Valid() && Built(old(V()), V(), Root(k), top) && V().Ptr(Root(k)) == s
      ensures s == FAIL ==> Ruined(old(V()), V(), top)
    {
      hide Ok, At, Grew, Prefix, Bit, Spoilt, Fresh, Ruined, FreeCount, Outcome;
      ghost var v := V();
      RootPtr(v, k);
      if blocks[k] == 0 {
        AllocRoot(k, top);
        if FreeCount(v.bits, NBLOCKS) == 0 {
          RootRuins(v, V(), k, top);
        } else {
          RootFresh(v, V(), k, top);
        }
      } else {
        RootBuilt(v, k, top);
        NeverFail(v, Root(k));
      }
      s := blocks[k];
    }

    /** The end of `alloc_inode_block`: the data block itself. */
    method AllocData(t: int, i: int, ghost q: Path, ghost v: View)
      requires Valid() && IsPath(Child(q, i)) && Built(v, V(), q, Child(q, i)) && V().Ptr(q) == t
      requires v.Ptr(Child(q, i)) == 0
      modifies this`bits, this`store, this`rdata, this`loc
      ensures |bits| == MAP_BYTES && |rdata| == BLOCK_SIZE && Outcome(v, V(), Child(q, i))
    {
      hide Ok, At, Grew, Bit, Spoilt, Fresh, Ruined, Missing, FreeCount, Mapped;
      ghost var u, p := V(), Child(q, i);
      BelowBuilt(v, u, q, i, p);
      AllocEntry(t, i, q, p);
      if FreeCount(u.bits, NBLOCKS) == 0 {
        BuiltRuins(v, u, V(), q, i, p);
      } else {
        BuiltFresh(v, u, V(), q, i, p);
      }
    }

    /** `alloc_inode_block`: gives an unmapped file block a fresh zeroed data block, building the pointer blocks above
        it where they are missing.  It reports success even when the blocks run out on the way, which leaves a valid
        tree exactly if there are as many as are missing.  The model stops where the source would go on
        with block -1. */
    method AllocInodeBlock(id: int) returns (r: int)
      requires Valid() && 0 <= id && (id < MAX_IDS ==> V().Ptr(PathOf(id)) == 0)
      modifies this`bits, this`store, this`rdata, this`blocks, this`loc
      ensures r == if id < MAX_IDS then 0 else -1
      ensures id >= MAX_IDS ==> Valid() && V() == old(V())
      ensures id < MAX_IDS ==> Outcome(old(V()), V(), PathOf(id))
      ensures id < MAX_IDS ==> (Valid() <==> old(FreeCount(bits, NBLOCKS) >= Missing(V(), PathOf(id))))
    {
      hide Ok, At, Grew, Prefix, PathOf, IsPath, Bit, Spoilt, Fresh, Built, Mapped, FreeCount, Missing, RanOutAt;
      if id >= MAX_IDS {
        return -1;
      }
      ghost var v, p := V(), PathOf(id);
      PathPrefixes(id);
      MissingUnfold(v, p);
      if id < DIRECT {
        AllocRoot(id, p);
        if FreeCount(v.bits, NBLOCKS) == 0 {
          RootRuins(v, V(), id, p);
        } else {
          RootFresh(v, V(), id, p);
        }
      } else if id < DIRECT + N {
        var lv1 := RootBlock(DIRECT, p);
        if lv1 != FAIL {
          AllocData(lv1, id - DIRECT, Root(DIRECT), v);
        }
      } else if id < DIRECT + N + N * N {
        var i2 := (id - DIRECT - N) / N;
        var i1 := (id - DIRECT - N) % N;
        var lv2 := RootBlock(DIRECT + 1, p);
        if lv2 != FAIL {
          var lv1 := Descend(lv2, i2, Root(DIRECT + 1), p, v);
          if lv1 != FAIL {
            AllocData(lv1, i1, p.parent, v);
          }
        }
      } else {
        var i3 := (id - DIRECT - N - N * N) / (N * N);
        var i2 := (id - DIRECT - N - N * N - i3 * (N * N)) / N;
        var i1 := (id - DIRECT - N - N * N) % N;
        var lv3 := RootBlock(DIRECT + 2, p);
        if lv3 != FAIL {
          var lv2 := Descend(lv3, i3, Root(DIRECT + 2), p, v);
          if lv2 != FAIL {
            var lv1 := Descend(lv2, i2, p.parent.parent, p, v);
            if lv1 != FAIL {
              AllocData(lv1, i1, p.parent, v);
            }
          }
        }
      }
      r := 0;
    }

    /** `free_block`, of an allocated block or of one that is free already. */
    method FreeBlock(s: int)
      requires |bits| == MAP_BYTES && IsData(s)
      modifies this`bits
      ensures |bits| == MAP_BYTES
      ensures FreeCount(bits, NBLOCKS) == FreeCount(old(bits), NBLOCKS) + if Bit(old(bits), BlockIdx(s)) then 1 else 0
      ensures forall b :: 0 <= b < NBLOCKS ==> (Bit(bits, b) <==> Bit(old(bits), b) && SectorOf(b) != s)
      ensures bits == ClearBit(old(bits), BlockIdx(s))
    {
      hide Bit;
      if Bit(bits, BlockIdx(s)) {
        FreeCountClear(bits, NBLOCKS, BlockIdx(s));
      }
      forall b | 0 <= b < NBLOCKS ensures Bit(ClearBit(bits, BlockIdx(s)), b) <==> Bit(bits, b) && SectorOf(b) != s {
        BitAfterClear(bits, BlockIdx(s), b);
      }
      if !Bit(bits, BlockIdx(s)) {
        FreeCountSame(ClearBit(bits, BlockIdx(s)), bits, NBLOCKS);
      }
      bits := ClearBit(bits, BlockIdx(s));
    }

    /** Releasing place p if it starts at lo and holds a pointer. */
    method FreeAt(s: int, starts: bool, ghost v: View, ghost lo: int, ghost nb: int, ghost p: Path)
      requires Ok(v) && Released(v, bits, lo, Level(p), nb) && 0 <= lo < MAX_IDS && lo < nb
      requires IsPath(p) && Prefix(p, PathOf(lo)) && v.Ptr(p) == s && (starts <==> First(p) == lo)
      modifies this`bits
      ensures Released(v, bits, lo, Level(p) + 1, nb)
    {
      hide Ok, At, IsPath, First, Level, PathOf, Prefix, Released, Bit;
      if s != 0 && starts {
        ReleaseOne(v, bits, lo, Level(p), nb, p);
        ReleasedSize(v, bits, lo, Level(p), nb);
        FreeBlock(s);
      } else {
        ReleaseNone(v, bits, lo, Level(p), nb, p);
      }
    }

    /** Reading a pointer block during teardown; it must still be allocated. */
    method ReadHeld(s: int)
      requires |bits| == MAP_BYTES && IsData(s) && Bit(bits, BlockIdx(s))
      requires s in store && |store[s]| == BLOCK_SIZE
      modifies this`rdata
      ensures rdata == store[s]
    {
      rdata := store[s];
    }

    /** What the teardown keeps: the tree itself is not written. */
    ghost predicate TearingDown(v: View)
      reads this
    {
      Ok(v) && blocks == v.blocks && store == v.store && loc == v.loc && |rdata| == BLOCK_SIZE
    }

    /** One pass of the loop of `free_inode` over a singly indirect block. */
    method FreeSingle(i: int, ghost v: View, ghost nb: int) returns (i': int)
      requires TearingDown(v) && Released(v, bits, i, 0, nb) && DIRECT <= i < DIRECT + N && i < nb
      modifies this`bits, this`rdata
      ensures TearingDown(v) && DIRECT <= i' <= i && Released(v, bits, i' - 1, 0, nb)
    {
      hide Ok, At, IsPath, First, PathOf, Prefix, Released, Bit, Gone;
      var index := i - DIRECT;
      ghost var p := PathOf(i);
      PathPrefixes(i);
      Starts1(i);
      PtrStep(v, Root(DIRECT), index);
      RootPtr(v, DIRECT);
      var lv1 := blocks[DIRECT];
      if lv1 == 0 {
        i' := i - index;
        ReleaseSkip(v, bits, i, nb, Root(DIRECT));
        Starts1(i');
        PathPrefixes(i');
        ReleaseNext(v, bits, i', 2, nb, DIRECT);
        return;
      }
      NotGone(i, nb, Root(DIRECT));
      StillHeld(v, bits, i, 0, nb, Root(DIRECT));
      ReleasedSize(v, bits, i, 0, nb);
      ReadHeld(lv1);
      var data := Word(rdata, index);
      FreeAt(data, true, v, i, nb, p);
      FreeAt(lv1, index % N == 0, v, i, nb, Root(DIRECT));
      i' := i;
      ReleaseNext(v, bits, i, 2, nb, DIRECT);
    }

    /** Below a pointer block of pointer blocks: entry i2 is empty and its whole range is skipped, or
        the data block is freed and, at the start of its range, the pointer block with it. */
    method FreePair(lv2: int, i2: int, i1: int, i: int, ghost v: View, ghost nb: int, ghost q: Path) returns (i': int)
      requires TearingDown(v) && Released(v, bits, i, 0, nb) && 0 <= i < MAX_IDS && i < nb
      requires PathOf(i) == Child(Child(q, i2), i1) && Level(q) == 2 && First(q) <= i && v.Ptr(q) == lv2 != 0
      requires First(Child(q, i2)) == i - i1
      modifies this`bits, this`rdata
      ensures TearingDown(v) && Released(v, bits, i', 2, nb) && (i' == i || i' == i - i1)
    {
      hide Ok, At, PathOf, Released, Bit, Gone, First, Word;
      ghost var p := PathOf(i);
      PairFacts(i, q, i2, i1);
      PtrStep(v, q, i2);
      PtrStep(v, p.parent, i1);
      NotGone(i, nb, q);
      StillHeld(v, bits, i, 0, nb, q);
      ReleasedSize(v, bits, i, 0, nb);
      ReadHeld(lv2);
      var lv1 := Word(rdata, i2);
      i' := i;
      if lv1 == 0 {
        i' := i - i1;
        ReleaseSkip(v, bits, i, nb, p.parent);
      } else {
        NotGone(i, nb, p.parent);
        StillHeld(v, bits, i, 0, nb, p.parent);
        ReadHeld(lv1);
        var data := Word(rdata, i1);
        FreeAt(data, true, v, i, nb, p);
        FreeAt(lv1, i1 == 0, v, i, nb, p.parent);
      }
    }

    /** One pass of the loop over the doubly indirect range. */
    method FreeDouble(i: int, ghost v: View, ghost nb: int) returns (i': int)
      requires TearingDown(v) && Released(v, bits, i, 0, nb) && DIRECT + N <= i < DIRECT + N + N * N && i < nb
      modifies this`bits, this`rdata
      ensures TearingDown(v) && DIRECT + N <= i' <= i && Released(v, bits, i' - 1, 0, nb)
    {
      hide Ok, At, IsPath, First, PathOf, Prefix, Released, Bit, Gone, Level, Covers;
      var index := i - DIRECT - N;
      ghost var r := Root(DIRECT + 1);
      Starts2(i);
      RootPtr(v, DIRECT + 1);
      var lv2 := blocks[DIRECT + 1];
      if lv2 == 0 {
        i' := i - index;
        ReleaseSkip(v, bits, i, nb, r);
        Starts2(i');
        ReleaseNext(v, bits, i', 3, nb, DIRECT + 1);
        return;
      }
      i' := FreePair(lv2, index / N, index % N, i, v, nb, r);
      index := i' - DIRECT - N;
      Starts2(i');
      FreeAt(lv2, index % (N * N) == 0, v, i', nb, r);
      ReleaseNext(v, bits, i', 3, nb, DIRECT + 1);
    }

    /** One pass of the loop over the triply indirect range. */
    method FreeTriple(i: int, ghost v: View, ghost nb: int) returns (i': int)
      requires TearingDown(v) && Released(v, bits, i, 0, nb) && TRIPLE <= i < MAX_IDS && i < nb
      modifies this`bits, this`rdata
      ensures TearingDown(v) && TRIPLE <= i' <= i && Released(v, bits, i' - 1, 0, nb)
    {
      hide Ok, At, IsPath, First, PathOf, Prefix, Released, Bit, Gone, Level, Covers, Word, I1, I2, I3, Rest;
      var index := i - TRIPLE;
      ghost var r := Root(DIRECT + 2);
      ghost var q := Child(r, I3(index));
      Starts3(i);
      RootPtr(v, DIRECT + 2);
      PtrStep(v, r, I3(index));
      var lv3 := blocks[DIRECT + 2];
      if lv3 == 0 {
        i' := i - index;
        ReleaseSkip(v, bits, i, nb, r);
        Starts3(i');
        ReleaseNext(v, bits, i', 4, nb, DIRECT + 2);
        return;
      }
      NotGone(i, nb, r);
      StillHeld(v, bits, i, 0, nb, r);
      ReleasedSize(v, bits, i, 0, nb);
      ReadHeld(lv3);
      var lv2 := Word(rdata, I3(index));
      if lv2 == 0 {
        i' := i - Rest(index);
        ReleaseSkip(v, bits, i, nb, q);
      } else {
        i' := FreePair(lv2, I2(index), I1(index), i, v, nb, q);
        SameRange(index, i' - TRIPLE);
        Starts3(i');
        FreeAt(lv2, Rest(i' - TRIPLE) == 0, v, i', nb, q);
      }
      index := i' - TRIPLE;
      Starts3(i');
      FreeAt(lv3, index % (N * N * N) == 0, v, i', nb, r);
      ReleaseNext(v, bits, i', 4, nb, DIRECT + 2);
    }

    /** `free_inode`: gives back the blocks of every place that starts within the file, and no other. */
    method FreeInode()
      requires Valid() && size >= 0
      modifies this`bits, this`rdata, this`blocks, this`size, this`loc
      ensures Valid() && loc == map[] && size == 0 && blocks == seq(ROOTS, _ => 0)
      ensures Released(old(V()), bits, -1, 0, old(BlocksIn(size)))
      ensures old(Within(loc, BlocksIn(size))) ==> ExactlyFreed(old(V()), bits)
    {
      hide Ok, At, IsPath, First, PathOf, Prefix, Released, Bit, Gone, Level, Covers;
      ghost var v := V();
      var nblocks := BlocksIn(size);
      ReleasedStart(v, nblocks);
      var i := nblocks - 1;
      while i >= 0
        invariant -1 <= i < nblocks && TearingDown(v) && Released(v, bits, i, 0, nblocks)
      {
        if i < DIRECT {
          RootPtr(v, i);
          StartsDirect(i);
          FreeAt(blocks[i], true, v, i, nblocks, Root(i));
          ReleaseNext(v, bits, i, 1, nblocks, i);
        } else if i < DIRECT + N {
          i := FreeSingle(i, v, nblocks);
        } else if i < DIRECT + N + N * N {
          i := FreeDouble(i, v, nblocks);
        } else if i < MAX_IDS {
          i := FreeTriple(i, v, nblocks);
        } else {
          ReleaseBeyond(v, bits, i, nblocks);
        }
        i := i - 1;
      }
      blocks := seq(ROOTS, _ => 0);
      size := 0;
      loc := map[];
      ReleasedSize(v, bits, -1, 0, nblocks);
      EmptyOk(v, bits, nblocks);
      NothingLeaksIff(v, bits, nblocks);
    }

    /** Fetching file block id for writing, allocating it if need be. */
    method LoadForWrite(id: int, ghost v0: View, ghost buff: seq<int>, ghost p0: int, ghost upto: int, ghost bound: int,
                        ghost last: int)
      requires Valid() && 0 <= id <= last < MAX_IDS && Wrote(v0, V(), p0, buff, upto, -1) && Beside(v0, V())
      requires p0 / BLOCK_SIZE <= id <= LastBlock(p0, |buff|) && FreeCount(bits, NBLOCKS) >= Need(V(), id, last)
      modifies this`bits, this`store, this`rdata, this`blocks, this`loc, this`wdata
      ensures Valid() && Wrote(v0, V(), p0, buff, upto, -1) && IsMapped(V(), id) && Holds(wdata, v0, p0, buff, upto, id)
      ensures Beside(v0, V())
      ensures FreeCount(bits, NBLOCKS) - Need(V(), id + 1, last) == old(FreeCount(bits, NBLOCKS) - Need(V(), id, last))
      ensures old(Within(loc, bound)) && id < bound ==> Within(loc, bound)
    {
      hide Ok, Data, At, PathOf, Grew, Holds, Bit, IsPath, Level, First, Within, Wrote, Need, Missing, Beside;
      var s := BlockId2Sector(id);
      if s == 0 {
        ghost var w := V();
        PathOfId(id);
        NeedAtLeast(w, id, last);
        var r := AllocInodeBlock(id);
        NeedStep(w, V(), id, last);
        BesideGrew(v0, w, V(), PathOf(id));
        LoadKeeps(v0, w, V(), p0, buff, upto, id);
        if Within(w.loc, bound) && id < bound {
          GrewWithin(w, V(), PathOf(id), bound);
        }
        s := BlockId2Sector(id);
      } else {
        NeedMapped(V(), id, last);
      }
      DataIs(V(), id);
      WroteHolds(v0, V(), p0, buff, upto, id);
      wdata := store[s];
    }

    /** Writing the buffer back to file block id. */
    method StoreBack(id: int, ghost v0: View, ghost buff: seq<int>, ghost p0: int, ghost upto: int, ghost lo: int,
                     ghost last: int)
      requires Valid() && Wrote(v0, V(), p0, buff, upto, id) && IsMapped(V(), id)
               && Holds(wdata, v0, p0, buff, upto, id)
      requires Beside(v0, V()) && 0 <= lo && last < MAX_IDS
      modifies this`store, this`rdata
      ensures Valid() && Wrote(v0, V(), p0, buff, upto, -1) && Beside(v0, V())
              && Need(V(), lo, last) == old(Need(V(), lo, last))
      ensures IsMapped(V(), id)
    {
      hide Ok, Data, At, PathOf, Want, Bit, Need, Beside;
      ghost var w := V();
      PathOfId(id);
      FlushKeeps(v0, w, p0, buff, upto, id, wdata);
      PutPointers(w, id, wdata);
      var s := BlockId2Sector(id);
      store := store[s := wdata];
      assert V() == w.(store := w.store[w.Ptr(PathOf(id)) := wdata]);
      BesidePut(v0, w, w.Ptr(PathOf(id)), wdata);
      NeedSame(w, V(), lo, last);
    }

    /** Between two bytes of a write: everything up to the write position has landed, but for the
        part of block `top` that is still in the buffer. */
    ghost predicate Writing(v0: View, p0: int, buff: seq<int>, top: int, last: int, free: int)
      reads this
    {
      && (Within(v0.loc, BlocksIn(size)) ==> Within(loc, Max(BlocksIn(size), last + 1)))
      && Valid() && Ok(v0) && 0 <= p0 <= writePos <= p0 + |buff| <= MAX_IDS * BLOCK_SIZE
      && last == LastBlock(p0, |buff|) && 0 <= p0 / BLOCK_SIZE <= top <= last < MAX_IDS
      && Beside(v0, V()) && 0 <= free && FreeCount(bits, NBLOCKS) == free + Need(V(), top + 1, last)
      && top == (if writePos == p0 then p0 else writePos - 1) / BLOCK_SIZE && (writePos == p0 ==> IsMapped(V(), top))
      && if writePos % BLOCK_SIZE == 0 then Wrote(v0, V(), p0, buff, writePos, -1)
         else && IsMapped(V(), top) && Holds(wdata, v0, p0, buff, writePos, top)
              && (Wrote(v0, V(), p0, buff, writePos, top) || (writePos == p0 && Wrote(v0, V(), p0, buff, writePos, -1)))
    }

    /** The body of `do_write`'s loop. */
    method WriteByte(b: int, ghost v0: View, ghost p0: int, ghost buff: seq<int>, ghost top: int, ghost last: int,
                     ghost free: int)
      returns (ghost top': int)
      requires Writing(v0, p0, buff, top, last, free) && writePos < p0 + |buff| && b == buff[writePos - p0]
               && 0 <= b < 256
      modifies this`bits, this`store, this`rdata, this`blocks, this`loc, this`wdata, this`writePos
      ensures Writing(v0, p0, buff, top', last, free) && writePos == old(writePos) + 1
    {
      hide Ok, Data, At, PathOf, Holds, Bit, IsMapped, Wrote, Within, Need, Beside;
      top' := top;
      if writePos % BLOCK_SIZE == 0 {
        top' := writePos / BLOCK_SIZE;
        if top' == top {
          NeedMapped(V(), top, last);
        }
        LoadForWrite(writePos / BLOCK_SIZE, v0, buff, p0, writePos, Max(BlocksIn(size), last + 1), last);
      }
      var offset := writePos % BLOCK_SIZE;
      StepBuffer(wdata, v0, p0, buff, writePos, top');
      StepKeeps(v0, V(), p0, buff, writePos, top');
      wdata := wdata[offset := b];
      if offset == BLOCK_SIZE - 1 {
        StoreBack(writePos / BLOCK_SIZE, v0, buff, p0, writePos + 1, top' + 1, last);
      }
      writePos := writePos + 1;
    }

    /** After the loop: the buffered block is written back and the size brought up to date. */
    method FinishWrite(ghost v0: View, ghost p0: int, ghost buff: seq<int>, ghost top: int, ghost last: int,
                       ghost free: int)
      requires Writing(v0, p0, buff, top, last, free) && writePos == p0 + |buff|
      modifies this`store, this`rdata, this`size
      ensures Valid() && Wrote(v0, V(), p0, buff, p0 + |buff|, -1) && Beside(v0, V()) && IsMapped(V(), p0 / BLOCK_SIZE)
      ensures FreeCount(bits, NBLOCKS) == free && size == Max(old(size), writePos)
      ensures Within(v0.loc, BlocksIn(old(size))) ==>
                (Within(loc, BlocksIn(size)) <==> buff != [] || p0 < old(size) || p0 % BLOCK_SIZE != 0)
    {
      hide Ok, Data, At, PathOf, Holds, Bit, IsMapped, Wrote, Within, Need, Beside;
      if writePos % BLOCK_SIZE != 0 {
        WroteBuffered(v0, V(), p0, buff, writePos, top);
        StoreBack(writePos / BLOCK_SIZE, v0, buff, p0, writePos, top + 1, last);
      }
      NeedNone(V(), top + 1, last);
      if buff != [] {
        WroteMaps(v0, V(), p0, buff);
      }
      if Within(v0.loc, BlocksIn(size)) {
        WithinAfterWrite(V(), p0, |buff|, size);
      }
      if writePos > size {
        size := writePos;
      }
    }

    /** `do_write`: the bytes of buff land at the write position, all other bytes stay, and exactly the blocks the
        touched part of the file lacks are taken.  A write of nothing still fetches the block at the position. */
    method DoWrite(buff: seq<int>) returns (n: int)
      requires Valid() && (forall i :: 0 <= i < |buff| ==> 0 <= buff[i] < 256)
      requires 0 <= writePos < MAX_IDS * BLOCK_SIZE && writePos + |buff| <= MAX_IDS * BLOCK_SIZE
      requires FreeCount(bits, NBLOCKS) >= Need(V(), writePos / BLOCK_SIZE, LastBlock(writePos, |buff|))
      modifies this`bits, this`store, this`rdata, this`blocks, this`loc, this`wdata, this`size, this`writePos
      ensures Valid() && n == |buff|
      ensures Wrote(old(V()), V(), old(writePos), buff, old(writePos) + |buff|, -1) && Beside(old(V()), V())
      ensures IsMapped(V(), old(writePos) / BLOCK_SIZE)
      ensures FreeCount(bits, NBLOCKS)
           == old(FreeCount(bits, NBLOCKS) - Need(V(), writePos / BLOCK_SIZE, LastBlock(writePos, |buff|)))
      ensures writePos == old(writePos) + |buff| && size == Max(old(size), writePos)
      ensures old(Within(loc, BlocksIn(size))) ==>
                (Within(loc, BlocksIn(size)) <==> buff != [] || old(writePos < size || writePos % BLOCK_SIZE != 0))
    {
      hide Ok, Data, At, PathOf, Holds, Bit, IsMapped, Wrote, Within, Need, Beside;
      ghost var v0, p0, last := V(), writePos, LastBlock(writePos, |buff|);
      ghost var top := writePos / BLOCK_SIZE;
      ghost var free := FreeCount(bits, NBLOCKS) - Need(v0, top, last);
      WroteStart(v0, p0, buff);
      BesideSelf(v0);
      WithinMax(loc, BlocksIn(size), last + 1);
      LoadForWrite(writePos / BLOCK_SIZE, v0, buff, p0, p0, Max(BlocksIn(size), last + 1), last);
      var i := 0;
      while i < |buff|
        invariant 0 <= i <= |buff| && writePos == p0 + i && size == old(size) && Writing(v0, p0, buff, top, last, free)
        invariant i == 0 ==> top == p0 / BLOCK_SIZE
      {
        top := WriteByte(buff[i], v0, p0, buff, top, last, free);
        i := i + 1;
      }
      FinishWrite(v0, p0, buff, top, last, free);
      n := |buff|;
    }

    /** `do_read`: the bytes at the read position. */
    method DoRead(length: nat) returns (buff: seq<int>)
      requires Valid() && 0 <= readPos && readPos + length <= MAX_IDS * BLOCK_SIZE && readPos / BLOCK_SIZE < MAX_IDS
      modifies this`rdata, this`readPos
      ensures Valid() && readPos == old(readPos) + length && |buff| == length
      ensures forall i :: 0 <= i < length ==> buff[i] == FileByte(V(), old(readPos) + i)
    {
      hide Ok, Data, At, PathOf, Bit, OldByte;
      buff := [];
      var s := BlockId2Sector(readPos / BLOCK_SIZE);
      DataIs(V(), readPos / BLOCK_SIZE);
      rdata := store[s];
      var i := 0;
      while i < length
        invariant 0 <= i <= length && readPos == old(readPos) + i && |buff| == i && Valid()
        invariant forall j :: 0 <= j < i ==> buff[j] == FileByte(V(), old(readPos) + j)
        invariant (readPos % BLOCK_SIZE != 0 ==>
                    readPos / BLOCK_SIZE < MAX_IDS && rdata == Data(V(), readPos / BLOCK_SIZE))
      {
        DataIs(V(), readPos / BLOCK_SIZE);
        if readPos % BLOCK_SIZE == 0 {
          s := BlockId2Sector(readPos / BLOCK_SIZE);
          rdata := store[s];
        }
        buff := buff + [rdata[readPos % BLOCK_SIZE]];
        readPos := readPos + 1;
        i := i + 1;
      }
    }

    /** `do_lseek` on an open descriptor, positions being 32-bit. */
    method DoLseek(offset: int, whence: int) returns (r: int)
      modifies this`readPos, this`writePos
      ensures r == if 0 <= whence <= 2 then 0 else -1
      ensures whence == 0 ==> readPos == writePos == offset % 0x1_0000_0000
      ensures whence == 1 ==>
                readPos == (old(readPos) + offset) % 0x1_0000_0000
                && writePos == (old(writePos) + offset) % 0x1_0000_0000
      ensures whence == 2 ==> readPos == writePos == (size + offset) % 0x1_0000_0000
      ensures r == -1 ==> readPos == old(readPos) && writePos == old(writePos)
    {
      r := 0;
      if whence == 0 {
        readPos, writePos := offset % 0x1_0000_0000, offset % 0x1_0000_0000;
      } else if whence == 1 {
        readPos := (readPos + offset) % 0x1_0000_0000;
        writePos := (writePos + offset) % 0x1_0000_0000;
      } else if whence == 2 {
        readPos, writePos := (size + offset) % 0x1_0000_0000, (size + offset) % 0x1_0000_0000;
      } else {
        r := -1;
      }
    }

    /** Seeking, writing, seeking back and reading returns the bytes written. */
    method RoundTrip(pos: int, buff: seq<int>) returns (back: seq<int>)
      requires Valid() && (forall i :: 0 <= i < |buff| ==> 0 <= buff[i] < 256)
      requires 0 <= pos && pos + |buff| < 0x1_0000_0000
      requires FreeCount(bits, NBLOCKS) >= Need(V(), pos / BLOCK_SIZE, LastBlock(pos, |buff|))
      modifies this
      ensures Valid() && back == buff && size == if pos + |buff| > old(size) then pos + |buff| else old(size)
    {
      hide Ok, Wrote, FileByte, Bit, At, FreeCount, Within, Need, Beside;
      var r := DoLseek(pos, 0);
      ghost var v0 := V();
      var n := DoWrite(buff);
      ghost var w := V();
      r := DoLseek(pos, 0);
      back := DoRead(|buff|);
      ReadsBack(v0, w, pos, buff, back);
    }
  }

  /** On an empty disk: writing nothing to a new file and removing the file leaves a block taken for good. */
  method EmptyWriteLeaks() returns (fs: Fs, before: int, after: int)
    ensures fresh(fs) && fs.Valid() && fs.loc == map[] && fs.size == 0
    ensures before == NBLOCKS && after == FreeCount(fs.bits, NBLOCKS) == NBLOCKS - 1
  {
    hide Ok, Wrote, Beside, Need, Released, Within, ExactlyFreed, FreeCount, IsMapped, At;
    fs := new Fs();
    before := FreeCount(fs.bits, NBLOCKS);
    NeedFirst(fs.V());
    var n := fs.DoWrite([]);
    ghost var v := fs.V();
    fs.FreeInode();
    after := FreeCount(fs.bits, NBLOCKS);
    LeakedAll(v, fs.bits);
  }
}
