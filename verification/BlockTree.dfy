/** The inode's block tree: seven direct pointers, then one pointer each to a tree of depth one,
    two and three of 1024-entry pointer blocks. */
module BlockTree {

  const DIRECT: int := 7
  const N: int := 1024                    // pointers per block
  const BLOCK_SIZE: int := 4096
  const ROOTS: int := DIRECT + 3
  const MAX_IDS: int := DIRECT + N + N * N + N * N * N

  type Block = seq<int>                   // 4096 bytes
  type Store = map<int, Block>            // by first sector

  // ---------------------------------------------------------------- words in a block

  ghost predicate IsBlock(b: Block) {
    |b| == BLOCK_SIZE && forall k :: 0 <= k < BLOCK_SIZE ==> 0 <= b[k] < 256
  }

  /** The little-endian 32-bit word at index j. */
  function Word(b: Block, j: int): int
    requires |b| == BLOCK_SIZE && 0 <= j < N
  {
    b[4 * j] + 0x100 * b[4 * j + 1] + 0x1_0000 * b[4 * j + 2] + 0x100_0000 * b[4 * j + 3]
  }

  function SetWord(b: Block, j: int, w: int): (r: Block)
    requires |b| == BLOCK_SIZE && 0 <= j < N && 0 <= w < 0x1_0000_0000
    ensures |r| == BLOCK_SIZE
  {
    b[4 * j := w % 0x100][4 * j + 1 := w / 0x100 % 0x100]
     [4 * j + 2 := w / 0x1_0000 % 0x100][4 * j + 3 := w / 0x100_0000]
  }

  lemma WordAfterSet(b: Block, j: int, w: int, k: int)
    requires IsBlock(b) && 0 <= j < N && 0 <= k < N && 0 <= w < 0x1_0000_0000
    ensures IsBlock(SetWord(b, j, w))
    ensures Word(SetWord(b, j, w), k) == if k == j then w else Word(b, k)
  {
    WordBytes(w);
  }

  lemma WordBytes(w: int)
    requires 0 <= w < 0x1_0000_0000
    ensures w == w % 0x100 + 0x100 * (w / 0x100 % 0x100) + 0x1_0000 * (w / 0x1_0000 % 0x100)
              + 0x100_0000 * (w / 0x100_0000)
    ensures 0 <= w / 0x100_0000 < 0x100
  {
  }

  function ZeroBlock(): Block {
    seq(BLOCK_SIZE, _ => 0)
  }

  lemma ZeroWords(k: int)
    requires 0 <= k < N
    ensures IsBlock(ZeroBlock()) && Word(ZeroBlock(), k) == 0
  {
  }

  // ---------------------------------------------------------------- paths

  /** A place in the tree: one of the inode's pointers, or an entry of the pointer block at a place. */
  datatype Path = Root(k: int) | Child(parent: Path, i: int)

  /** Levels of pointer blocks below a place: 0 for a data block. */
  function Level(p: Path): int {
    match p
    case Root(k) => if k < DIRECT then 0 else k - DIRECT + 1
    case Child(q, _) => Level(q) - 1
  }

  predicate IsPath(p: Path) {
    match p
    case Root(k) => 0 <= k < ROOTS
    case Child(q, i) => IsPath(q) && Level(q) >= 1 && 0 <= i < N
  }

  /** File blocks covered by a place at a level. */
  function Span(level: int): int {
    if level <= 0 then 1 else if level == 1 then N else if level == 2 then N * N else N * N * N
  }

  /** The first file block a place covers. */
  function First(p: Path): int {
    match p
    case Root(k) =>
      if k <= DIRECT then k else if k == DIRECT + 1 then DIRECT + N else DIRECT + N + N * N
    case Child(q, i) => First(q) + i * Span(Level(q) - 1)
  }

  /** The place of a file block, by the index arithmetic of `blockid2sector`. */
  function PathOf(id: int): Path
    requires 0 <= id < MAX_IDS
  {
    if id < DIRECT then Root(id)
    else if id < DIRECT + N then Child(Root(DIRECT), id - DIRECT)
    else if id < DIRECT + N + N * N then
      var index := id - DIRECT - N;
      Child(Child(Root(DIRECT + 1), index / N), index % N)
    else
      var index := id - DIRECT - N - N * N;
      var i3 := index / (N * N);
      Child(Child(Child(Root(DIRECT + 2), i3), (index - i3 * (N * N)) / N), index % N)
  }

  lemma Shape1(r: int, i: int)
    requires DIRECT <= r < ROOTS && 0 <= i < N
    ensures var p := Child(Root(r), i);
            IsPath(p) && Level(p) == r - DIRECT && First(p) == First(Root(r)) + i * Span(r - DIRECT)
  {
  }

  lemma Shape2(r: int, j: int, i: int)
    requires DIRECT + 1 <= r < ROOTS && 0 <= i < N && 0 <= j < N
    ensures var p := Child(Child(Root(r), j), i);
            && IsPath(p) && Level(p) == r - DIRECT - 1
            && First(p) == First(Root(r)) + j * Span(r - DIRECT) + i * Span(r - DIRECT - 1)
  {
    Shape1(r, j);
  }

  lemma Shape3(k: int, j: int, i: int)
    requires 0 <= i < N && 0 <= j < N && 0 <= k < N
    ensures var p := Child(Child(Child(Root(DIRECT + 2), k), j), i);
            IsPath(p) && Level(p) == 0 && First(p) == DIRECT + N + N * N + k * (N * N) + j * N + i
  {
    Shape2(DIRECT + 2, k, j);
  }

  /** The index arithmetic splits an id exactly: different blocks have different places. */
  lemma PathOfId(id: int)
    requires 0 <= id < MAX_IDS
    ensures IsPath(PathOf(id)) && Level(PathOf(id)) == 0 && First(PathOf(id)) == id
  {
    if id < DIRECT {
    } else if id < DIRECT + N {
      Shape1(DIRECT, id - DIRECT);
    } else if id < DIRECT + N + N * N {
      var index := id - DIRECT - N;
      Shape2(DIRECT + 1, index / N, index % N);
    } else {
      var index := id - DIRECT - N - N * N;
      TwoDigits(index);
      Shape3(index / (N * N), index / N % N, index % N);
    }
  }

  /** An index in base N: dividing by N twice, or once by its square. */
  lemma TwoDigits(index: int)
    requires 0 <= index
    ensures index / (N * N) == index / N / N
    ensures (index - index / (N * N) * (N * N)) / N == index / N % N
    ensures index == index / (N * N) * (N * N) + index / N % N * N + index % N
  {
    var a, b := index / N, index % N;
    var c, d := a / N, a % N;
    assert index == c * (N * N) + (d * N + b) && 0 <= d * N + b < N * N;
  }

  /** The pointer stored at a place; 0 where there is none. */
  function At(blocks: seq<int>, store: Store, p: Path): int {
    match p
    case Root(k) => if 0 <= k < |blocks| then blocks[k] else 0
    case Child(q, i) =>
      var s := At(blocks, store, q);
      if s != 0 && s in store && |store[s]| == BLOCK_SIZE && 0 <= i < N then Word(store[s], i) else 0
  }

  /** `loc` sends every sector the inode uses to its only place. */
  ghost predicate Tree(blocks: seq<int>, store: Store, loc: map<int, Path>) {
    && |blocks| == ROOTS
    && 0 !in loc
    && (forall p :: IsPath(p) && At(blocks, store, p) != 0 ==>
          At(blocks, store, p) in loc && loc[At(blocks, store, p)] == p)
    && (forall s :: s in loc ==> IsPath(loc[s]) && At(blocks, store, loc[s]) == s && s in store && IsBlock(store[s]))
  }

  /** Storing pointer s at place p: in the inode, or in the pointer block above p. */
  function PutBlocks(blocks: seq<int>, p: Path, s: int): seq<int>
    requires p.Root? ==> 0 <= p.k < |blocks|
  {
    if p.Root? then blocks[p.k := s] else blocks
  }

  function PutStore(blocks: seq<int>, store: Store, p: Path, s: int): Store
    requires p.Child? ==> var t := At(blocks, store, p.parent);
                          t in store && |store[t]| == BLOCK_SIZE && 0 <= p.i < N && 0 <= s < 0x1_0000_0000
  {
    if p.Root? then store
    else
      var t := At(blocks, store, p.parent);
      store[t := SetWord(store[t], p.i, s)]
  }

  /** The tree reads only pointer blocks, which all lie in `loc`. */
  lemma {:induction false} AtFrame(blocks: seq<int>, store: Store, store': Store, loc: map<int, Path>, q: Path)
    requires Tree(blocks, store, loc) && IsPath(q)
    requires forall s :: s in loc && Level(loc[s]) >= 1 ==> s in store' && s in store && store'[s] == store[s]
    ensures At(blocks, store', q) == At(blocks, store, q)
  {
    if q.Child? {
      AtFrame(blocks, store, store', loc, q.parent);
    }
  }

  /** Writing blocks outside the pointer blocks leaves the tree as it is. */
  lemma TreeFrame(blocks: seq<int>, store: Store, store': Store, loc: map<int, Path>)
    requires Tree(blocks, store, loc)
    requires forall s :: s in loc ==> s in store' && IsBlock(store'[s])
    requires forall s :: s in loc && Level(loc[s]) >= 1 ==> s in store && store'[s] == store[s]
    ensures Tree(blocks, store', loc)
    ensures forall q :: IsPath(q) ==> At(blocks, store', q) == At(blocks, store, q)
  {
    forall q | IsPath(q) ensures At(blocks, store', q) == At(blocks, store, q) {
      AtFrame(blocks, store, store', loc, q);
    }
  }

  /** Hanging a zeroed block s at an empty place p maps p to s and changes no other place. */
  ghost predicate CanGraft(blocks: seq<int>, store: Store, loc: map<int, Path>, p: Path, s: int) {
    && Tree(blocks, store, loc) && IsPath(p) && At(blocks, store, p) == 0
    && (p.Child? ==> At(blocks, store, p.parent) != 0)
    && 0 < s < 0x1_0000_0000 && s !in loc && s in store && store[s] == ZeroBlock()
  }

  lemma ParentBlock(blocks: seq<int>, store: Store, loc: map<int, Path>, p: Path, s: int)
    requires CanGraft(blocks, store, loc, p, s) && p.Child?
    ensures var t := At(blocks, store, p.parent);
            t in loc && loc[t] == p.parent && t in store && IsBlock(store[t]) && t != s && 0 <= p.i < N
  {
  }

  lemma {:induction false} GraftAt(blocks: seq<int>, store: Store, loc: map<int, Path>, p: Path, s: int, q: Path)
    requires CanGraft(blocks, store, loc, p, s) && IsPath(q)
    requires p.Child? ==> At(blocks, store, p.parent) in store && IsBlock(store[At(blocks, store, p.parent)])
    ensures At(PutBlocks(blocks, p, s), PutStore(blocks, store, p, s), q) == if q == p then s else At(blocks, store, q)
    decreases q
  {
    if q.Child? {
      GraftAt(blocks, store, loc, p, s, q.parent);
      var t := At(blocks, store, q.parent);
      if q.parent == p {
        ZeroWords(q.i);
        if p.Child? {
          ParentBlock(blocks, store, loc, p, s);
        }
      } else if t != 0 && p.Child? {
        ParentBlock(blocks, store, loc, p, s);
        WordAfterSet(store[At(blocks, store, p.parent)], p.i, s, q.i);
      }
    }
  }

  lemma GraftTree(blocks: seq<int>, store: Store, loc: map<int, Path>, p: Path, s: int)
    requires CanGraft(blocks, store, loc, p, s)
    requires p.Child? ==> At(blocks, store, p.parent) in store && IsBlock(store[At(blocks, store, p.parent)])
    ensures Tree(PutBlocks(blocks, p, s), PutStore(blocks, store, p, s), loc[s := p])
    ensures forall q :: IsPath(q) ==>
              At(PutBlocks(blocks, p, s), PutStore(blocks, store, p, s), q) == if q == p then s
                else At(blocks, store, q)
  {
    var b', s' := PutBlocks(blocks, p, s), PutStore(blocks, store, p, s);
    forall q | IsPath(q) ensures At(b', s', q) == if q == p then s else At(blocks, store, q) {
      GraftAt(blocks, store, loc, p, s, q);
    }
    PutStoreBlocks(blocks, store, loc, p, s);
    hide At, PutStore, PutBlocks;
  }

  /** Only the pointer block above p is written, and it stays a block. */
  lemma PutStoreBlocks(blocks: seq<int>, store: Store, loc: map<int, Path>, p: Path, s: int)
    requires CanGraft(blocks, store, loc, p, s)
    requires p.Child? ==> At(blocks, store, p.parent) in store && IsBlock(store[At(blocks, store, p.parent)])
    ensures var s' := PutStore(blocks, store, p, s);
            && s'.Keys == store.Keys
            && (forall t :: t in loc ==> t in store && IsBlock(s'[t]))
            && (forall t :: t in store && (t in loc ==> Level(loc[t]) == 0) ==> s'[t] == store[t])
    ensures IsBlock(ZeroBlock())
  {
    ZeroWords(0);
    if p.Child? {
      ParentBlock(blocks, store, loc, p, s);
      WordAfterSet(store[At(blocks, store, p.parent)], p.i, s, 0);
    }
  }

  // ---------------------------------------------------------------- which places cover a file block

  ghost predicate Prefix(q: Path, p: Path) {
    q == p || (p.Child? && Prefix(q, p.parent))
  }

  ghost predicate Covers(q: Path, id: int) {
    First(q) <= id < First(q) + Span(Level(q))
  }

  /** A place covers only file blocks whose places lie below it. */
  lemma CoversPrefix(q: Path, id: int)
    requires IsPath(q) && Covers(q, id)
    ensures 0 <= id < MAX_IDS && Prefix(q, PathOf(id))
  {
    match q
    case Root(k) =>
      RootCovers(k, id);
    case Child(Root(r), i) =>
      Above(q);
      Shape1(r, i);
      Covers1(r, i, id);
    case Child(Child(Root(r), j), i) =>
      Above(q);
      Above(q.parent);
      Shape2(r, j, i);
      Covers2(r, j, i, id);
    case Child(Child(Child(Root(r), k), j), i) =>
      Above(q);
      Above(q.parent);
      Above(q.parent.parent);
      Shape3(k, j, i);
      Covers3(k, j, i, id);
    case Child(Child(Child(Child(x, l), k), j), i) =>
      Above(q);
      Above(q.parent);
      Above(q.parent.parent);
      Above(q.parent.parent.parent);
      LevelBound(x);
      LevelBound(q);
      assert false;
  }

  lemma Covers3(k: int, j: int, i: int, id: int)
    requires 0 <= k < N && 0 <= j < N && 0 <= i < N && id == DIRECT + N + N * N + k * (N * N) + j * N + i
    ensures 0 <= id < MAX_IDS && PathOf(id) == Child(Child(Child(Root(DIRECT + 2), k), j), i)
  {
    var index := id - DIRECT - N - N * N;
    assert index / (N * N) == k;
    assert (index - k * (N * N)) / N == j && index % N == i;
  }

  lemma RootCovers(k: int, id: int)
    requires 0 <= k < ROOTS && Covers(Root(k), id)
    ensures 0 <= id < MAX_IDS && Prefix(Root(k), PathOf(id))
  {
    if k > DIRECT + 1 {
      var p := PathOf(id);
      assert Prefix(Root(k), p.parent.parent);
      assert Prefix(Root(k), p.parent);
    }
  }

  lemma Covers1(r: int, i: int, id: int)
    requires DIRECT <= r < ROOTS && 0 <= i < N
    requires First(Root(r)) + i * Span(r - DIRECT) <= id < First(Root(r)) + i * Span(r - DIRECT) + Span(r - DIRECT)
    ensures 0 <= id < MAX_IDS && Prefix(Child(Root(r), i), PathOf(id))
  {
    if r == DIRECT {
    } else if r == DIRECT + 1 {
      assert (id - DIRECT - N) / N == i;
    } else {
      var index := id - DIRECT - N - N * N;
      assert index / (N * N) == i;
      assert Prefix(Child(Root(r), i), PathOf(id).parent);
    }
  }

  lemma Covers2(r: int, j: int, i: int, id: int)
    requires DIRECT + 1 <= r < ROOTS && 0 <= i < N && 0 <= j < N
    requires var first := First(Root(r)) + j * Span(r - DIRECT) + i * Span(r - DIRECT - 1);
             first <= id < first + Span(r - DIRECT - 1)
    ensures 0 <= id < MAX_IDS && Prefix(Child(Child(Root(r), j), i), PathOf(id))
  {
    if r == DIRECT + 1 {
      assert (id - DIRECT - N) / N == j && (id - DIRECT - N) % N == i;
    } else {
      hide PathOf;
      Covers3(j, i, id - (DIRECT + N + N * N + j * (N * N) + i * N), id);
    }
  }

  lemma Above(p: Path)
    requires IsPath(p) && p.Child?
    ensures IsPath(p.parent) && Level(p.parent) == Level(p) + 1 && Level(p.parent) >= 1 && 0 <= p.i < N
  {
  }

  lemma {:induction false} LevelBound(x: Path)
    requires IsPath(x)
    ensures 0 <= Level(x) <= 3
  {
    if x.Child? {
      LevelBound(x.parent);
    }
  }

  lemma {:induction false} PrefixBounds(q: Path, p: Path)
    requires Prefix(q, p) && IsPath(p)
    ensures IsPath(q) && Level(q) >= Level(p) && (Level(q) == Level(p) ==> q == p) && First(q) <= First(p)
  {
    if q != p {
      Above(p);
      PrefixBounds(q, p.parent);
      LevelBound(p);
      assert p.i * Span(Level(p.parent) - 1) >= 0;
    }
  }

  lemma SpanStep(l: int, i: int)
    requires 1 <= l <= 3 && 0 <= i < N
    ensures Span(l) == N * Span(l - 1) && 0 <= i * Span(l - 1) && i * Span(l - 1) + Span(l - 1) <= Span(l)
  {
  }

  /** A place covers all that the places below it cover. */
  lemma {:induction false} PrefixSpans(q: Path, p: Path)
    requires Prefix(q, p) && IsPath(p)
    ensures First(q) <= First(p) && First(p) + Span(Level(p)) <= First(q) + Span(Level(q))
  {
    hide Span;
    if q != p {
      Above(p);
      LevelBound(p.parent);
      PrefixSpans(q, p.parent);
      SpanStep(Level(p.parent), p.i);
    }
  }

  /** A place covers a file block exactly if it lies on the way to it. */
  lemma CoversExactly(q: Path, id: int)
    requires IsPath(q)
    ensures Covers(q, id) <==> 0 <= id < MAX_IDS && Prefix(q, PathOf(id))
  {
    hide PathOf, IsPath, Prefix, First, Level;
    if Covers(q, id) {
      CoversPrefix(q, id);
    } else if 0 <= id < MAX_IDS && Prefix(q, PathOf(id)) {
      PathOfId(id);
      PrefixSpans(q, PathOf(id));
    }
  }

  /** Two places above the same one are above each other. */
  lemma {:induction false} PrefixChain(p: Path, q: Path, r: Path)
    requires Prefix(p, r) && Prefix(q, r) && IsPath(r) && Level(q) <= Level(p)
    ensures Prefix(p, q)
  {
    if q != r {
      Above(r);
      PrefixBounds(q, r.parent);
      PrefixChain(p, q, r.parent);
    }
  }

  /** Nothing hangs below an empty place. */
  lemma {:induction false} EmptyBelow(blocks: seq<int>, store: Store, p: Path, q: Path)
    requires Prefix(p, q) && At(blocks, store, p) == 0
    ensures At(blocks, store, q) == 0
  {
    if p != q {
      EmptyBelow(blocks, store, p, q.parent);
    }
  }

  lemma StartsBelow(q: Path)
    requires IsPath(q)
    ensures Covers(q, First(q)) && 0 <= First(q) < MAX_IDS && Prefix(q, PathOf(First(q)))
  {
    hide PathOf, IsPath, Prefix, First, Level;
    LevelBound(q);
    CoversPrefix(q, First(q));
  }

  /** If place p is empty, no place that starts within its range, up to p itself, holds a pointer. */
  lemma EmptyRange(blocks: seq<int>, store: Store, p: Path, q: Path)
    requires IsPath(p) && IsPath(q) && At(blocks, store, p) == 0
    requires Covers(p, First(q)) && (First(q) > First(p) || Level(q) <= Level(p))
    ensures At(blocks, store, q) == 0
  {
    hide PathOf, At, First, IsPath, Prefix, Level;
    StartsBelow(q);
    CoversPrefix(p, First(q));
    var r := PathOf(First(q));
    PathOfId(First(q));
    if Level(q) > Level(p) {
      PrefixChain(q, p, r);
      PrefixBounds(q, p);
    }
    PrefixChain(p, q, r);
    EmptyBelow(blocks, store, p, q);
  }

  /** At most one place starts at a given file block on a given level. */
  lemma StartUnique(p: Path, q: Path)
    requires IsPath(p) && IsPath(q) && First(p) == First(q) && Level(p) == Level(q)
    ensures p == q
  {
    hide PathOf, IsPath, Prefix, First, Level;
    StartsBelow(q);
    StartsBelow(p);
    var r := PathOf(First(q));
    PathOfId(First(q));
    PrefixChain(p, q, r);
    PrefixBounds(p, q);
  }
}
