/** Page-table entries and the three-level table of section 4.4 of the RISC-V Privileged
    Architecture, version 20211203, as the kernel reads and writes them. */
module Sv39 {

  type Word = bv64

  // ---------------------------------------------------------------- entries

  const PFN_MASK: Word := 0xFFF_FFFF_FFFF                 // 44 bits
  const PRESENT: Word := 0x01
  const ACCESSED_DIRTY: Word := 0xC0
  const LEAF_BITS: Word := 0x9F                           // present, rwx, user, dirty

  function GetPfn(e: Word): Word {
    (e >> 10) & PFN_MASK
  }

  function SetPfn(e: Word, pfn: Word): Word {
    (e & !(PFN_MASK << 10)) | (pfn << 10)
  }

  function GetAttr(e: Word, mask: Word): Word {
    e & mask
  }

  function SetAttr(e: Word, bits: Word): Word {
    e | bits
  }

  function ClearAttr(e: Word, bits: Word): Word {
    e & !bits
  }

  /** A process may read, write and execute the page, and the clock takes it for used. */
  predicate Usable(e: Word) {
    e & 0x02 != 0 && e & 0x04 != 0 && e & 0x08 != 0 && e & 0x10 != 0 && e & 0x80 != 0
  }

  lemma LeafUsable(e: Word)
    ensures Usable(SetAttr(e, LEAF_BITS))
  {
  }

  /** Below 2^44 the frame number survives, and the attribute bits are not touched. */
  lemma PfnRoundTrip(e: Word, pfn: Word)
    requires pfn <= PFN_MASK
    ensures GetPfn(SetPfn(e, pfn)) == pfn
    ensures SetPfn(e, pfn) & 0x3FF == e & 0x3FF
  {
  }

  /** Attribute writes leave the frame number alone. */
  lemma AttrKeepsPfn(e: Word, bits: Word)
    requires bits <= 0x3FF
    ensures GetPfn(SetAttr(e, bits)) == GetPfn(e) && GetPfn(ClearAttr(e, bits)) == GetPfn(e)
  {
  }

  // ---------------------------------------------------------------- addresses

  const VA_MASK: Word := 0x7F_FFFF_FFFF                   // 39 bits
  const USER_TOP: Word := 0x40_0000_0000                  // user addresses have bit 38 clear

  function Vpn2(va: Word): Word {
    (va & VA_MASK) >> 30
  }

  function Vpn1(va: Word): Word {
    (Vpn2(va) << 9) ^ ((va & VA_MASK) >> 21)
  }

  function Vpn0(va: Word): Word {
    ((va & VA_MASK) >> 12) ^ (Vpn2(va) << 18) ^ (Vpn1(va) << 9)
  }

  function PageOf(va: Word): Word {
    va & !0xFFF
  }

  /** The shift-and-xor arithmetic yields exactly the three 9-bit slices. */
  lemma VpnSlices(va: Word)
    ensures Vpn2(va) == (va >> 30) & 0x1FF && Vpn1(va) == (va >> 21) & 0x1FF && Vpn0(va) == (va >> 12) & 0x1FF
  {
    VpnSlice2(va);
    VpnSlice1(va);
    VpnSlice0(va);
  }

  lemma VpnSlice2(va: Word)
    ensures Vpn2(va) == (va >> 30) & 0x1FF
  {
  }

  lemma VpnSlice1(va: Word)
    ensures Vpn1(va) == (va >> 21) & 0x1FF
  {
  }

  lemma VpnSlice0(va: Word)
    ensures Vpn0(va) == (va >> 12) & 0x1FF
  {
  }

  /** A user page is determined by its three indices, and the top one stays in the user half. */
  lemma VpnInjective(va: Word, vb: Word)
    requires va < USER_TOP && vb < USER_TOP
    requires Vpn2(va) == Vpn2(vb) && Vpn1(va) == Vpn1(vb) && Vpn0(va) == Vpn0(vb)
    ensures PageOf(va) == PageOf(vb)
  {
    VpnSlices(va);
    VpnSlices(vb);
    Slices(va, vb);
  }

  lemma Slices(va: Word, vb: Word)
    requires va < USER_TOP && vb < USER_TOP
    requires (va >> 30) & 0x1FF == (vb >> 30) & 0x1FF && (va >> 21) & 0x1FF == (vb >> 21) & 0x1FF
    requires (va >> 12) & 0x1FF == (vb >> 12) & 0x1FF
    ensures PageOf(va) == PageOf(vb)
  {
  }

  lemma VpnRange(va: Word)
    ensures Idx(Vpn2(va)) && Idx(Vpn1(va)) && Idx(Vpn0(va))
    ensures va < USER_TOP ==> UserIdx(Vpn2(va))
    ensures va < USER_TOP ==> PageOf(va) < USER_TOP && PageOf(PageOf(va)) == PageOf(va)
  {
    VpnSlices(va);
  }

  /** The indices of an address are those of its page. */
  lemma VpnOfPage(va: Word)
    ensures Vpn2(PageOf(va)) == Vpn2(va) && Vpn1(PageOf(va)) == Vpn1(va) && Vpn0(PageOf(va)) == Vpn0(va)
  {
    VpnSlices(va);
    VpnSlices(PageOf(va));
  }

  // ---------------------------------------------------------------- tables

  /** Entry idx of the table in frame `table`. */
  datatype Slot = Slot(table: Word, idx: Word)

  datatype Frame = Frame(n: Word)

  type Memory = map<Slot, Word>
  type Roots = map<int, Word>                             // pcb->pgdir by pid

  datatype Option<T> = None | Some(value: T)

  /** The tables of a process: its root, one per second-level index, one per pair of indices. */
  datatype Place = Root(pid: int) | Mid(pid: int, i2: Word) | Leaf(pid: int, i2: Word, i1: Word)

  predicate Idx(i: Word) {
    i < 512
  }

  predicate UserIdx(i: Word) {
    i < 256
  }

  predicate IsPlace(p: Place) {
    match p
    case Root(_) => true
    case Mid(_, i2) => UserIdx(i2)
    case Leaf(_, i2, i1) => UserIdx(i2) && Idx(i1)
  }

  /** Following entry i of a table, as the kernel does: any non-zero entry names a table. */
  function Follow(pt: Memory, t: Option<Word>, i: Word): Option<Word> {
    match t
    case None => None
    case Some(f) => if Slot(f, i) in pt && pt[Slot(f, i)] != 0 then Some(GetPfn(pt[Slot(f, i)])) else None
  }

  function RootTable(root: Roots, pid: int): Option<Word> {
    if pid in root then Some(root[pid]) else None
  }

  function TableAt(pt: Memory, root: Roots, p: Place): Option<Word> {
    match p
    case Root(pid) => RootTable(root, pid)
    case Mid(pid, i2) => Follow(pt, RootTable(root, pid), i2)
    case Leaf(pid, i2, i1) => Follow(pt, Follow(pt, RootTable(root, pid), i2), i1)
  }

  /** `tloc` sends the frame of every user-half table to its only place. */
  ghost predicate Tables(pt: Memory, root: Roots, tloc: map<Frame, Place>) {
    && (forall p :: IsPlace(p) && TableAt(pt, root, p).Some? ==>
          Frame(TableAt(pt, root, p).value) in tloc && tloc[Frame(TableAt(pt, root, p).value)] == p)
    && (forall f :: f in tloc ==> IsPlace(tloc[f]) && TableAt(pt, root, tloc[f]) == Some(f.n) && f.n <= PFN_MASK)
    && (forall f, i :: f in tloc && Idx(i) ==> Slot(f.n, i) in pt)
  }

  /** `uva2pte`: the leaf entry of an address, None where the walk meets a zero entry. */
  function LeafSlot(pt: Memory, root: Roots, pid: int, va: Word): Option<Slot> {
    match TableAt(pt, root, Leaf(pid, Vpn2(va), Vpn1(va)))
    case None => None
    case Some(f) => Some(Slot(f, Vpn0(va)))
  }

  /** The hardware's walk: the frame of a present leaf. */
  function Translate(pt: Memory, root: Roots, pid: int, va: Word): Option<Word> {
    match LeafSlot(pt, root, pid, va)
    case None => None
    case Some(s) => if s in pt && GetAttr(pt[s], PRESENT) != 0 then Some(GetPfn(pt[s])) else None
  }

  /** Different user pages have different leaf entries. */
  lemma LeafInjective(pt: Memory, root: Roots, tloc: map<Frame, Place>, pid: int, va: Word, pid': int, vb: Word)
    requires Tables(pt, root, tloc) && va < USER_TOP && vb < USER_TOP
    requires LeafSlot(pt, root, pid, va).Some? && LeafSlot(pt, root, pid, va) == LeafSlot(pt, root, pid', vb)
    ensures pid == pid' && PageOf(va) == PageOf(vb)
  {
    hide Vpn2, Vpn1, Vpn0, PageOf, TableAt, UserIdx, Idx;
    VpnRange(va);
    VpnRange(vb);
    var p, p' := Leaf(pid, Vpn2(va), Vpn1(va)), Leaf(pid', Vpn2(vb), Vpn1(vb));
    assert TableAt(pt, root, p).Some? && TableAt(pt, root, p') == TableAt(pt, root, p);
    assert p == p';
    VpnInjective(va, vb);
  }

  /** Writing an entry of a leaf table moves no table. */
  lemma LeafWriteKeeps(pt: Memory, root: Roots, tloc: map<Frame, Place>, s: Slot, e: Word)
    requires Tables(pt, root, tloc) && Frame(s.table) in tloc && tloc[Frame(s.table)].Leaf?
    ensures Tables(pt[s := e], root, tloc)
    ensures forall p :: IsPlace(p) ==> TableAt(pt[s := e], root, p) == TableAt(pt, root, p)
  {
    hide GetPfn, UserIdx, Idx, IsPlace;
    forall p | IsPlace(p) ensures TableAt(pt[s := e], root, p) == TableAt(pt, root, p) {
      LeafWriteAt(pt, root, tloc, s, e, p);
    }
  }

  lemma LeafWriteAt(pt: Memory, root: Roots, tloc: map<Frame, Place>, s: Slot, e: Word, p: Place)
    requires Tables(pt, root, tloc) && Frame(s.table) in tloc && tloc[Frame(s.table)].Leaf? && IsPlace(p)
    ensures TableAt(pt[s := e], root, p) == TableAt(pt, root, p)
  {
    hide Tables, GetPfn, UserIdx, Idx;
    if !p.Root? && TableAt(pt, root, Root(p.pid)).Some? {
      TableIn(pt, root, tloc, Root(p.pid));
      if p.Leaf? && TableAt(pt, root, Mid(p.pid, p.i2)).Some? {
        TableIn(pt, root, tloc, Mid(p.pid, p.i2));
      }
    }
  }

  /** Hanging the zeroed table k below place p (a root or middle table) at index i. */
  function Child(p: Place, i: Word): Place
    requires !p.Leaf?
  {
    if p.Root? then Mid(p.pid, i) else Leaf(p.pid, p.i2, i)
  }

  /** `clear_pgdir`: zeroes the 512 entries of the table in frame k. */
  method ClearPgdir(pt: Memory, k: Word) returns (pt': Memory)
    ensures IsCleared(pt, pt', k)
  {
    pt' := pt;
    var i: Word := 0;
    while i < 512
      invariant i <= 512
      invariant forall s: Slot :: s.table != k ==> (s in pt' <==> s in pt) && (s in pt ==> pt'[s] == pt[s])
      invariant forall s :: s in pt ==> s in pt'
      invariant forall j: Word :: j < i ==> Slot(k, j) in pt' && pt'[Slot(k, j)] == 0
      decreases 512 - i
    {
      pt' := pt'[Slot(k, i) := 0];
      i := i + 1;
    }
  }

  ghost predicate IsCleared(pt: Memory, pt': Memory, k: Word) {
    && (forall s :: s in pt ==> s in pt')
    && (forall s: Slot :: s.table != k ==> (s in pt' <==> s in pt) && (s in pt ==> pt'[s] == pt[s]))
    && (forall j: Word :: Idx(j) ==> Slot(k, j) in pt' && pt'[Slot(k, j)] == 0)
  }

  /** Table k may be hung at entry i of the table at p. */
  ghost predicate CanHang(pt: Memory, root: Roots, tloc: map<Frame, Place>, p: Place, i: Word, k: Word, e: Word) {
    && Tables(pt, root, tloc) && !p.Leaf? && IsPlace(p) && IsPlace(Child(p, i))
    && TableAt(pt, root, p).Some? && TableAt(pt, root, Child(p, i)).None?
    && Frame(k) !in tloc && k <= PFN_MASK && e != 0 && GetPfn(e) == k
  }

  /** The memory with entry i of table t set and table k zeroed. */
  ghost predicate Hung(pt: Memory, pt': Memory, t: Word, i: Word, k: Word, e: Word) {
    && (forall s :: s in pt ==> s in pt')
    && (forall s :: s in pt && s.table != k && s != Slot(t, i) ==> pt'[s] == pt[s])
    && (forall s :: s in pt' && s.table != k && s != Slot(t, i) ==> s in pt)
    && (forall j: Word :: Idx(j) ==> Slot(k, j) in pt' && pt'[Slot(k, j)] == 0)
    && Slot(t, i) in pt' && pt'[Slot(t, i)] == e
  }

  lemma FollowHung(pt: Memory, pt': Memory, t: Word, i: Word, k: Word, e: Word, f: Word, j: Word)
    requires Hung(pt, pt', t, i, k, e) && e != 0 && GetPfn(e) == k
    ensures f == t && j == i && t != k ==> Follow(pt', Some(f), j) == Some(k)
    ensures f != k && !(f == t && j == i) ==> Follow(pt', Some(f), j) == Follow(pt, Some(f), j)
    ensures f == k && k != t && Idx(j) ==> Follow(pt', Some(f), j) == None
  {
    hide Idx, GetPfn;
    assert Slot(f, j) == Slot(t, i) <==> f == t && j == i;
  }

  /** Where an existing table lies, in the form the walk needs it. */
  lemma TableIn(pt: Memory, root: Roots, tloc: map<Frame, Place>, p: Place)
    requires Tables(pt, root, tloc) && IsPlace(p) && TableAt(pt, root, p).Some?
    ensures Frame(TableAt(pt, root, p).value) in tloc && tloc[Frame(TableAt(pt, root, p).value)] == p
  {
  }

  lemma HangMid(pt: Memory, root: Roots, tloc: map<Frame, Place>, p: Place, i: Word, k: Word, e: Word, pt': Memory,
                pid: int, i2: Word)
    requires CanHang(pt, root, tloc, p, i, k, e) && Hung(pt, pt', TableAt(pt, root, p).value, i, k, e) && UserIdx(i2)
    ensures TableAt(pt', root, Mid(pid, i2)) == if Mid(pid, i2) == Child(p, i) then Some(k)
            else TableAt(pt, root, Mid(pid, i2))
  {
    hide Tables, Hung, Follow, GetPfn, UserIdx, Idx;
    TableIn(pt, root, tloc, p);
    var r := RootTable(root, pid);
    if r.Some? {
      TableIn(pt, root, tloc, Root(pid));
      FollowHung(pt, pt', TableAt(pt, root, p).value, i, k, e, r.value, i2);
    } else {
      FollowNone(pt, i2);
      FollowNone(pt', i2);
    }
  }

  lemma FollowNone(pt: Memory, i: Word)
    ensures Follow(pt, None, i) == None
  {
  }

  /** Hanging a table fills its place and moves no other table. */
  lemma HangAt(pt: Memory, root: Roots, tloc: map<Frame, Place>, p: Place, i: Word, k: Word, e: Word, pt': Memory,
               q: Place)
    requires CanHang(pt, root, tloc, p, i, k, e) && Hung(pt, pt', TableAt(pt, root, p).value, i, k, e) && IsPlace(q)
    ensures TableAt(pt', root, q) == if q == Child(p, i) then Some(k) else TableAt(pt, root, q)
  {
    hide Tables, Hung, Follow, GetPfn, UserIdx, Idx;
    TableIn(pt, root, tloc, p);
    if q.Mid? {
      HangMid(pt, root, tloc, p, i, k, e, pt', q.pid, q.i2);
    } else if q.Leaf? {
      HangMid(pt, root, tloc, p, i, k, e, pt', q.pid, q.i2);
      var m := Mid(q.pid, q.i2);
      if m == Child(p, i) {
        FollowHung(pt, pt', TableAt(pt, root, p).value, i, k, e, k, q.i1);
        FollowNone(pt, q.i1);
      } else if TableAt(pt, root, m).Some? {
        TableIn(pt, root, tloc, m);
        FollowHung(pt, pt', TableAt(pt, root, p).value, i, k, e, TableAt(pt, root, m).value, q.i1);
      } else {
        FollowNone(pt, q.i1);
        FollowNone(pt', q.i1);
      }
    }
  }

  lemma HangKeeps(pt: Memory, root: Roots, tloc: map<Frame, Place>, p: Place, i: Word, k: Word, e: Word, pt': Memory)
    requires CanHang(pt, root, tloc, p, i, k, e) && Hung(pt, pt', TableAt(pt, root, p).value, i, k, e)
    ensures Tables(pt', root, tloc[Frame(k) := Child(p, i)])
    ensures forall q :: IsPlace(q) ==> TableAt(pt', root, q) == if q == Child(p, i) then Some(k)
            else TableAt(pt, root, q)
  {
    hide GetPfn, UserIdx, Idx;
    forall q | IsPlace(q) ensures TableAt(pt', root, q) == if q == Child(p, i) then Some(k) else TableAt(pt, root, q) {
      HangAt(pt, root, tloc, p, i, k, e, pt', q);
    }
  }

  /** What a leaf entry says to the hardware. */
  function Names(e: Word): Option<Word> {
    if GetAttr(e, PRESENT) != 0 then Some(GetPfn(e)) else None
  }

  lemma LeafTable(pt: Memory, root: Roots, tloc: map<Frame, Place>, pid: int, va: Word)
    requires Tables(pt, root, tloc) && va < USER_TOP && LeafSlot(pt, root, pid, va).Some?
    ensures var s := LeafSlot(pt, root, pid, va).value;
            s in pt && Frame(s.table) in tloc && tloc[Frame(s.table)].Leaf?
              && Translate(pt, root, pid, va) == Names(pt[s])
  {
    hide Vpn2, Vpn1, Vpn0, UserIdx, Idx, GetAttr, GetPfn, Follow;
    VpnRange(va);
    TableIn(pt, root, tloc, Leaf(pid, Vpn2(va), Vpn1(va)));
  }

  /** Writing the leaf entry of one user page changes the translation of that page and of no other. */
  lemma LeafEntry(pt: Memory, root: Roots, tloc: map<Frame, Place>, pid: int, va: Word, e: Word, pid': int, vb: Word)
    requires Tables(pt, root, tloc) && va < USER_TOP && vb < USER_TOP && LeafSlot(pt, root, pid, va).Some?
    ensures var pt' := pt[LeafSlot(pt, root, pid, va).value := e];
            && Tables(pt', root, tloc)
            && LeafSlot(pt', root, pid', vb) == LeafSlot(pt, root, pid', vb)
            && Translate(pt', root, pid', vb)
            == if pid' == pid && PageOf(vb) == PageOf(va) then Names(e) else Translate(pt, root, pid', vb)
  {
    hide Vpn2, Vpn1, Vpn0, UserIdx, Idx, GetAttr, GetPfn, Follow, RootTable, PageOf, Tables;
    LeafTable(pt, root, tloc, pid, va);
    var s := LeafSlot(pt, root, pid, va).value;
    LeafWriteKeeps(pt, root, tloc, s, e);
    VpnRange(vb);
    assert IsPlace(Leaf(pid', Vpn2(vb), Vpn1(vb)));
    if pid' == pid && PageOf(vb) == PageOf(va) {
      VpnOfPage(va);
      VpnOfPage(vb);
    } else if LeafSlot(pt, root, pid', vb) == Some(s) {
      LeafInjective(pt, root, tloc, pid, va, pid', vb);
    }
  }

  /** The bits the clock clears do not matter to the hardware's walk. */
  lemma MarksKeepNames(e: Word)
    ensures Names(ClearAttr(e, ACCESSED_DIRTY)) == Names(e) && Names(SetAttr(e, ACCESSED_DIRTY)) == Names(e)
    ensures GetAttr(ClearAttr(e, ACCESSED_DIRTY), ACCESSED_DIRTY) == 0
    ensures GetAttr(SetAttr(e, ACCESSED_DIRTY), ACCESSED_DIRTY) == ACCESSED_DIRTY
    ensures Names(ClearAttr(e, PRESENT)) == None
  {
  }

  lemma LeafNames(e: Word, pfn: Word)
    requires pfn <= PFN_MASK
    ensures Names(SetAttr(SetPfn(e, pfn), LEAF_BITS)) == Some(pfn)
  {
  }

  // ---------------------------------------------------------------- growing and dropping trees

  /** The entry written for a new table below a zero entry. */
  lemma TableEntry(k: Word)
    requires k <= PFN_MASK
    ensures SetAttr(SetPfn(0, k), PRESENT) != 0 && GetPfn(SetAttr(SetPfn(0, k), PRESENT)) == k
  {
  }

  lemma ZeroNames()
    ensures Names(0) == None
  {
  }

  /** A new table changes no translation, and no leaf entry moves. */
  lemma HangTranslate(pt: Memory, root: Roots, tloc: map<Frame, Place>, p: Place, i: Word, k: Word, e: Word,
                      pt': Memory, pid: int, va: Word)
    requires CanHang(pt, root, tloc, p, i, k, e) && Hung(pt, pt', TableAt(pt, root, p).value, i, k, e) && va < USER_TOP
    ensures Translate(pt', root, pid, va) == Translate(pt, root, pid, va)
    ensures LeafSlot(pt, root, pid, va).Some? ==> LeafSlot(pt', root, pid, va) == LeafSlot(pt, root, pid, va)
    ensures Child(p, i) == Leaf(pid, Vpn2(va), Vpn1(va)) ==> LeafSlot(pt', root, pid, va).Some?
    ensures LeafSlot(pt', root, pid, va).Some? && Child(p, i) != Leaf(pid, Vpn2(va), Vpn1(va)) ==>
            LeafSlot(pt, root, pid, va).Some?
  {
    hide Tables, TableAt, Child, GetPfn, UserIdx, Idx, Vpn2, Vpn1, Vpn0, PageOf, GetAttr;
    VpnRange(va);
    var q := Leaf(pid, Vpn2(va), Vpn1(va));
    HangAt(pt, root, tloc, p, i, k, e, pt', q);
    TableIn(pt, root, tloc, p);
    if q == Child(p, i) {
      ZeroNames();
    } else if TableAt(pt, root, q).Some? {
      TableIn(pt, root, tloc, q);
      LeafTable(pt, root, tloc, pid, va);
    }
  }

  /** Table r receives a zero user half; nothing else changes. */
  ghost predicate FreshRoot(pt: Memory, pt': Memory, r: Word) {
    && (forall s :: s in pt ==> s in pt')
    && (forall s: Slot :: s.table != r ==> (s in pt' <==> s in pt) && (s in pt ==> pt'[s] == pt[s]))
    && (forall i :: Idx(i) ==> Slot(r, i) in pt')
    && (forall i :: UserIdx(i) ==> Slot(r, i) in pt' && pt'[Slot(r, i)] == 0)
  }

  lemma FreshFollow(pt: Memory, pt': Memory, r: Word, f: Word, i: Word)
    requires FreshRoot(pt, pt', r)
    ensures f != r ==> Follow(pt', Some(f), i) == Follow(pt, Some(f), i)
    ensures f == r && UserIdx(i) ==> Follow(pt', Some(f), i) == None
  {
    hide GetPfn, Idx, UserIdx;
    assert Slot(f, i).table == f;
  }

  /** A new root has no user tables and leaves the others alone. */
  lemma RootAt(pt: Memory, root: Roots, tloc: map<Frame, Place>, pid: int, r: Word, pt': Memory, q: Place)
    requires Tables(pt, root, tloc) && pid !in root && Frame(r) !in tloc && FreshRoot(pt, pt', r) && IsPlace(q)
    ensures TableAt(pt', root[pid := r], q) == if q == Root(pid) then Some(r) else TableAt(pt, root, q)
  {
    hide Tables, GetPfn, Idx, UserIdx, FreshRoot, Follow;
    if !q.Root? {
      FollowNone(pt, q.i2);
      if q.Leaf? {
        FollowNone(pt', q.i1);
        FollowNone(pt, q.i1);
      }
      if q.pid == pid {
        FreshFollow(pt, pt', r, r, q.i2);
      } else if q.pid in root {
        RootOthers(pt, root, tloc, pid, r, pt', q);
      } else {
        FollowNone(pt', q.i2);
      }
    }
  }

  lemma RootOthers(pt: Memory, root: Roots, tloc: map<Frame, Place>, pid: int, r: Word, pt': Memory, q: Place)
    requires Tables(pt, root, tloc) && Frame(r) !in tloc && FreshRoot(pt, pt', r) && IsPlace(q)
    requires !q.Root? && q.pid != pid && q.pid in root
    ensures TableAt(pt', root[pid := r], q) == TableAt(pt, root, q)
  {
    hide Tables, GetPfn, Idx, UserIdx, FreshRoot, Follow;
    TableIn(pt, root, tloc, Root(q.pid));
    FreshFollow(pt, pt', r, root[q.pid], q.i2);
    if q.Leaf? {
      var m := TableAt(pt, root, Mid(q.pid, q.i2));
      if m.Some? {
        TableIn(pt, root, tloc, Mid(q.pid, q.i2));
        FreshFollow(pt, pt', r, m.value, q.i1);
      } else {
        FollowNone(pt, q.i1);
        FollowNone(pt', q.i1);
      }
    }
  }

  lemma RootKeeps(pt: Memory, root: Roots, tloc: map<Frame, Place>, pid: int, r: Word, pt': Memory)
    requires Tables(pt, root, tloc) && pid !in root && Frame(r) !in tloc && r <= PFN_MASK && FreshRoot(pt, pt', r)
    ensures Tables(pt', root[pid := r], tloc[Frame(r) := Root(pid)])
  {
    hide GetPfn, UserIdx, Idx, TableAt, IsPlace, FreshRoot;
    RootPlaces(pt, root, tloc, pid, r, pt');
    RootSlots(pt, root, tloc, pid, r, pt');
    NoTables(pt, root, pid);
  }

  /** No other table has moved. */
  lemma RootPlaces(pt: Memory, root: Roots, tloc: map<Frame, Place>, pid: int, r: Word, pt': Memory)
    requires Tables(pt, root, tloc) && pid !in root && Frame(r) !in tloc && r <= PFN_MASK && FreshRoot(pt, pt', r)
    ensures forall q :: IsPlace(q) ==>
              TableAt(pt', root[pid := r], q) == if q == Root(pid) then Some(r) else TableAt(pt, root, q)
  {
    hide GetPfn, UserIdx, Idx, TableAt, IsPlace, FreshRoot, Tables;
    forall q | IsPlace(q)
      ensures TableAt(pt', root[pid := r], q) == if q == Root(pid) then Some(r) else TableAt(pt, root, q)
    {
      RootAt(pt, root, tloc, pid, r, pt', q);
    }
  }

  /** All entries of all tables are there. */
  lemma RootSlots(pt: Memory, root: Roots, tloc: map<Frame, Place>, pid: int, r: Word, pt': Memory)
    requires Tables(pt, root, tloc) && FreshRoot(pt, pt', r)
    ensures forall f, i :: f in tloc[Frame(r) := Root(pid)] && Idx(i) ==> Slot(f.n, i) in pt'
  {
    hide GetPfn, UserIdx, Idx, TableAt, IsPlace, FreshRoot;
    forall f, i | f in tloc[Frame(r) := Root(pid)] && Idx(i) ensures Slot(f.n, i) in pt' {
      FreshHas(pt, pt', r, f.n, i);
    }
  }

  lemma FreshHas(pt: Memory, pt': Memory, r: Word, f: Word, i: Word)
    requires FreshRoot(pt, pt', r) && Idx(i)
    ensures f == r || Slot(f, i) in pt ==> Slot(f, i) in pt'
  {
  }

  lemma NoTables(pt: Memory, root: Roots, pid: int)
    requires pid !in root
    ensures IsPlace(Root(pid)) && forall q: Place :: q.pid == pid ==> TableAt(pt, root, q).None?
  {
  }

  lemma FreshSlot(pt: Memory, pt': Memory, r: Word, s: Slot)
    requires FreshRoot(pt, pt', r) && s.table != r && s in pt
    ensures s in pt' && pt'[s] == pt[s]
  {
  }

  lemma UserLeaf(pid: int, va: Word)
    requires va < USER_TOP
    ensures IsPlace(Leaf(pid, Vpn2(va), Vpn1(va)))
  {
    hide Vpn2, Vpn1, Vpn0, PageOf, Idx, UserIdx;
    VpnRange(va);
  }

  lemma RootTranslate(pt: Memory, root: Roots, tloc: map<Frame, Place>, pid: int, r: Word, pt': Memory, pid': int,
                      va: Word)
    requires Tables(pt, root, tloc) && pid !in root && Frame(r) !in tloc && FreshRoot(pt, pt', r) && va < USER_TOP
    ensures LeafSlot(pt', root[pid := r], pid', va) == LeafSlot(pt, root, pid', va)
    ensures Translate(pt', root[pid := r], pid', va) == Translate(pt, root, pid', va)
  {
    hide Tables, TableAt, UserIdx, Idx, Vpn2, Vpn1, Vpn0, FreshRoot, IsPlace, Translate;
    var q := Leaf(pid', Vpn2(va), Vpn1(va));
    UserLeaf(pid', va);
    RootAt(pt, root, tloc, pid, r, pt', q);
    if TableAt(pt, root, q).Some? {
      TableIn(pt, root, tloc, q);
      LeafTable(pt, root, tloc, pid', va);
      FreshSlot(pt, pt', r, LeafSlot(pt, root, pid', va).value);
    }
    SameLeaf(pt, root, pt', root[pid := r], pid', va);
  }

  /** A translation depends on the leaf entry alone. */
  lemma SameLeaf(pt: Memory, root: Roots, pt': Memory, root': Roots, pid: int, va: Word)
    requires LeafSlot(pt', root', pid, va) == LeafSlot(pt, root, pid, va)
    requires LeafSlot(pt, root, pid, va).Some? ==>
               var s := LeafSlot(pt, root, pid, va).value; s in pt && s in pt' && pt'[s] == pt[s]
    ensures Translate(pt', root', pid, va) == Translate(pt, root, pid, va)
  {
    hide LeafSlot, GetPfn, GetAttr;
  }

  function TablesOfOthers(tloc: map<Frame, Place>, pid: int): map<Frame, Place> {
    map f | f in tloc && tloc[f].pid != pid :: tloc[f]
  }

  lemma DropAt(pt: Memory, root: Roots, pid: int, q: Place)
    ensures TableAt(pt, root - {pid}, q) == if q.pid == pid then None else TableAt(pt, root, q)
  {
    hide GetPfn;
  }

  lemma DropWalk(pt: Memory, root: Roots, pid: int, pid': int, va: Word)
    ensures LeafSlot(pt, root - {pid}, pid', va) == if pid' == pid then None else LeafSlot(pt, root, pid', va)
    ensures Translate(pt, root - {pid}, pid', va) == if pid' == pid then None else Translate(pt, root, pid', va)
  {
    hide TableAt, GetPfn, Vpn2, Vpn1, Vpn0, GetAttr;
    DropAt(pt, root, pid, Leaf(pid', Vpn2(va), Vpn1(va)));
  }

  /** Dropping a root drops the process's tables and no others. */
  lemma DropKeeps(pt: Memory, root: Roots, tloc: map<Frame, Place>, pid: int)
    requires Tables(pt, root, tloc)
    ensures Tables(pt, root - {pid}, TablesOfOthers(tloc, pid))
  {
    hide TableAt, GetPfn, UserIdx, Idx, IsPlace;
    forall q ensures TableAt(pt, root - {pid}, q) == if q.pid == pid then None else TableAt(pt, root, q) {
      DropAt(pt, root, pid, q);
    }
  }

  /** Where the tables are determines every walk. */
  lemma SameWalk(pt: Memory, pt': Memory, root: Roots, tloc: map<Frame, Place>, pid: int, va: Word)
    requires Tables(pt, root, tloc) && Tables(pt', root, tloc) && va < USER_TOP
    ensures LeafSlot(pt', root, pid, va) == LeafSlot(pt, root, pid, va)
  {
    hide TableAt, GetPfn, UserIdx, Idx, Vpn2, Vpn1, Vpn0, IsPlace;
    UserLeaf(pid, va);
  }

  /** What entry i of the table at p says about the place below it. */
  lemma ChildEntry(pt: Memory, root: Roots, tloc: map<Frame, Place>, p: Place, i: Word)
    requires Tables(pt, root, tloc) && !p.Leaf? && IsPlace(p) && IsPlace(Child(p, i)) && TableAt(pt, root, p).Some?
    ensures var s := Slot(TableAt(pt, root, p).value, i);
            s in pt && TableAt(pt, root, Child(p, i)) == if pt[s] == 0 then None else Some(GetPfn(pt[s]))
  {
    hide GetPfn, Tables;
    TableIn(pt, root, tloc, p);
    RowOf(pt, root, tloc, TableAt(pt, root, p).value, i);
  }

  lemma RowOf(pt: Memory, root: Roots, tloc: map<Frame, Place>, f: Word, i: Word)
    requires Tables(pt, root, tloc) && Frame(f) in tloc && Idx(i)
    ensures Slot(f, i) in pt
  {
    assert Frame(f).n == f;
  }

  /** Setting the entry and clearing the new table amount to hanging it. */
  lemma HungBy(pt: Memory, root: Roots, tloc: map<Frame, Place>, p: Place, i: Word, k: Word, e: Word, pt': Memory)
    requires Tables(pt, root, tloc) && !p.Leaf? && IsPlace(p) && IsPlace(Child(p, i)) && TableAt(pt, root, p).Some?
    requires TableAt(pt, root, Child(p, i)).None? && Frame(k) !in tloc && k <= PFN_MASK && e != 0 && GetPfn(e) == k
    requires IsCleared(pt[Slot(TableAt(pt, root, p).value, i) := e], pt', k)
    ensures CanHang(pt, root, tloc, p, i, k, e) && Hung(pt, pt', TableAt(pt, root, p).value, i, k, e)
  {
    hide Tables, TableAt, Child, IsPlace, GetPfn, Idx;
    TableIn(pt, root, tloc, p);
  }

  /** The tables on the path of a user address. */
  lemma UserPlaces(pid: int, va: Word)
    requires va < USER_TOP
    ensures IsPlace(Root(pid)) && IsPlace(Mid(pid, Vpn2(va))) && IsPlace(Leaf(pid, Vpn2(va), Vpn1(va)))
    ensures Child(Root(pid), Vpn2(va)) == Mid(pid, Vpn2(va))
    ensures Child(Mid(pid, Vpn2(va)), Vpn1(va)) == Leaf(pid, Vpn2(va), Vpn1(va))
  {
    hide Vpn2, Vpn1, Vpn0, PageOf, Idx, UserIdx;
    VpnRange(va);
  }

  lemma LeafSlotIs(pt: Memory, root: Roots, pid: int, va: Word)
    requires TableAt(pt, root, Leaf(pid, Vpn2(va), Vpn1(va))).Some?
    ensures LeafSlot(pt, root, pid, va) == Some(Slot(TableAt(pt, root, Leaf(pid, Vpn2(va), Vpn1(va))).value, Vpn0(va)))
  {
    hide Vpn2, Vpn1, Vpn0, TableAt;
  }

  /** An address translates as its page does. */
  lemma SamePage(pt: Memory, root: Roots, pid: int, va: Word)
    ensures Translate(pt, root, pid, PageOf(va)) == Translate(pt, root, pid, va)
  {
    hide Vpn2, Vpn1, Vpn0, TableAt, PageOf, GetPfn;
    VpnOfPage(va);
  }

  /** `share_pgtable`, onto a table other than the source whose user half is empty. */
  method SharePgtable(pt: Memory, dest: Word, src: Word) returns (pt': Memory)
    requires dest != src && forall i :: Idx(i) ==> Slot(src, i) in pt
    requires forall i :: UserIdx(i) ==> Slot(src, i) in pt && pt[Slot(src, i)] == 0
    ensures FreshRoot(pt, pt', dest)
    ensures forall i :: Idx(i) ==> Slot(src, i) in pt && Slot(dest, i) in pt' && pt'[Slot(dest, i)] == pt[Slot(src, i)]
  {
    pt' := pt;
    var i: Word := 0;
    while i < 512
      invariant i <= 512 && Copied(pt, pt', dest, src, i)
      decreases 512 - i
    {
      assert Idx(i);
      CopyStep(pt, pt', dest, src, i);
      pt' := pt'[Slot(dest, i) := pt'[Slot(src, i)]];
      i := i + 1;
    }
  }

  /** The first n entries of src are in dest; no other table has changed. */
  ghost predicate Copied(pt: Memory, pt': Memory, dest: Word, src: Word, n: Word) {
    && (forall s :: s in pt ==> s in pt')
    && (forall s: Slot :: s.table != dest ==> (s in pt' <==> s in pt) && (s in pt ==> pt'[s] == pt[s]))
    && (forall j: Word :: Below(j, n) ==>
          Slot(src, j) in pt && Slot(dest, j) in pt' && pt'[Slot(dest, j)] == pt[Slot(src, j)])
  }

  lemma CopyStep(pt: Memory, pt': Memory, dest: Word, src: Word, n: Word)
    requires Copied(pt, pt', dest, src, n) && n < 512 && dest != src && Slot(src, n) in pt
    ensures Slot(src, n) in pt' && Copied(pt, pt'[Slot(dest, n) := pt'[Slot(src, n)]], dest, src, n + 1)
  {
    hide Below;
    assert Slot(src, n).table == src;
    var pt2 := pt'[Slot(dest, n) := pt'[Slot(src, n)]];
    forall j: Word | Below(j, n + 1) ensures Slot(src, j) in pt && Slot(dest, j) in pt2
      && pt2[Slot(dest, j)] == pt[Slot(src, j)] {
      BelowNext(j, n);
    }
  }

  predicate Below(j: Word, n: Word) {
    j < n
  }

  lemma BelowNext(j: Word, n: Word)
    requires n < 512 && Below(j, n + 1)
    ensures Below(j, n) || j == n
  {
  }
}
