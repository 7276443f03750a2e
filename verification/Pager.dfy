/** Demand paging: page nodes, the frame bitmap, clock eviction and the swap area on the card. */
module Pager {
  import opened Rings
  import opened Bitmap
  import opened UserFrames
  import S = Sv39

  const MAX_NODES: int := 0x40000         // PageNode_MAXNUM
  const PER_PAGE: int := 8                // sectors in a page
  const MEM: int := -1                    // &user_page_mem_head
  const CARD: int := -2                   // &user_page_sd_head

  type Sector = seq<int>
  type Page = seq<Sector>

  /** A page of a process; uva is page-aligned and in the user half. */
  datatype Key = Key(pid: int, uva: S.Word)

  datatype Node = Node(active: bool, pte: S.Slot, pid: int, addr: int, uva: S.Word)

  function KeyOf(n: Node): Key {
    Key(n.pid, n.uva)
  }

  /** Where a page is: the node describing it, and its frame or its first sector. */
  datatype Home = InMem(node: int, frame: int) | OnCard(node: int, sector: int)

  // ---------------------------------------------------------------- the parts of the invariant

  /** Every listed node describes its own page, and every page has one node.  Node `fl`, if any, is
      on its way from the card to memory and on neither list. */
  ghost predicate Lists(nodes: seq<Node>, mq: seq<int>, sq: seq<int>, fl: int, home: map<Key, Home>) {
    && |nodes| == MAX_NODES
    && (forall i :: i in mq ==>
          0 <= i < MAX_NODES && nodes[i].active && KeyOf(nodes[i]) in home
          && home[KeyOf(nodes[i])] == InMem(i, nodes[i].addr))
    && (forall i :: i in sq || i == fl >= 0 ==>
          0 <= i < MAX_NODES && nodes[i].active && KeyOf(nodes[i]) in home
            && home[KeyOf(nodes[i])] == OnCard(i, nodes[i].addr))
    && (fl >= 0 ==> fl !in sq)
    && (forall k :: k in home ==>
          && 0 <= home[k].node < MAX_NODES && KeyOf(nodes[home[k].node]) == k
          && if home[k].InMem? then home[k].node in mq else home[k].node in sq || home[k].node == fl)
  }

  /** A bit is set exactly for the frame of some page, or for the one the allocator just handed out. */
  ghost predicate FramesOk(bits: Bits, fr: map<int, Key>, held: int, home: map<Key, Home>) {
    && FRAMES <= 8 * |bits|
    && (forall k :: k in home && home[k].InMem? ==> home[k].frame in fr && fr[home[k].frame] == k)
    && (forall f :: f in fr ==> 0 <= f < FRAMES && fr[f] in home && home[fr[f]].InMem? && home[fr[f]].frame == f)
    && (forall f :: 0 <= f < FRAMES ==> (Bit(bits, f) <==> f in fr || f == held))
    && (held >= 0 ==> held < FRAMES && held !in fr)
  }

  /** Swapped pages occupy disjoint runs of sectors below the end mark. */
  ghost predicate CardOk(sd: map<int, Sector>, sdEnd: int, home: map<Key, Home>) {
    && (forall k, j :: k in home && home[k].OnCard? && 0 <= j < PER_PAGE ==> Nth(home[k].sector, j) in sd)
    && (forall k :: k in home && home[k].OnCard? ==> home[k].sector + PER_PAGE <= sdEnd)
    && (forall k, k' :: k in home && k' in home && home[k].OnCard? && home[k'].OnCard? && k != k' ==>
          home[k].sector + PER_PAGE <= home[k'].sector || home[k'].sector + PER_PAGE <= home[k].sector)
  }

  function Nth(s: int, j: int): int {
    s + j
  }

  /** A page's node points at its leaf entry, which is present and names its frame exactly when the
      page is in memory. */
  ghost predicate PteOk(pt: S.Memory, root: S.Roots, nodes: seq<Node>, k: Key, h: Home)
    requires |nodes| == MAX_NODES
  {
    && k.uva < S.USER_TOP && S.PageOf(k.uva) == k.uva && 0 <= h.node < MAX_NODES
    && S.LeafSlot(pt, root, k.pid, k.uva) == S.Some(nodes[h.node].pte)
    && S.Translate(pt, root, k.pid, k.uva) == if h.InMem? then S.Some(Pfn(h.frame)) else S.None
  }

  /** Nothing else is present. */
  ghost predicate PresentOk(pt: S.Memory, root: S.Roots, home: map<Key, Home>) {
    forall pid, va :: va < S.USER_TOP && S.Translate(pt, root, pid, va).Some? ==>
      Key(pid, S.PageOf(va)) in home && home[Key(pid, S.PageOf(va))].InMem?
  }

  /** The page tables agree with the nodes. */
  ghost predicate PtesOk(pt: S.Memory, root: S.Roots, tloc: map<S.Frame, S.Place>, nodes: seq<Node>,
                         home: map<Key, Home>) {
    && S.Tables(pt, root, tloc) && |nodes| == MAX_NODES
    && (forall k :: k in home ==> PteOk(pt, root, nodes, k, home[k]))
    && PresentOk(pt, root, home)
  }

  /** What a page holds, wherever it is. */
  ghost function Contents(frames: seq<Page>, sd: map<int, Sector>, h: Home): Page {
    match h
    case InMem(_, f) => if 0 <= f < |frames| then frames[f] else []
    case OnCard(_, s) => CardPage(sd, s, PER_PAGE)
  }

  /** The first n sectors of the run at s. */
  function CardPage(sd: map<int, Sector>, s: int, n: nat): Page {
    if n == 0 then [] else CardPage(sd, s, n - 1) + [if Nth(s, n - 1) in sd then sd[Nth(s, n - 1)] else []]
  }

  /** All pages, as their processes see them. */
  ghost function View(frames: seq<Page>, sd: map<int, Sector>, home: map<Key, Home>): map<Key, Page> {
    map k | k in home :: Contents(frames, sd, home[k])
  }

  /** Every frame and every sector run holds a whole page. */
  ghost predicate PagesOk(frames: seq<Page>) {
    |frames| == FRAMES && forall f :: 0 <= f < FRAMES ==> |frames[f]| == PER_PAGE
  }

  // ---------------------------------------------------------------- the card

  /** `sd_write` of the first n sectors of p at s. */
  function CardStore(sd: map<int, Sector>, s: int, p: Page, n: nat): map<int, Sector>
    requires n <= |p|
  {
    if n == 0 then sd else CardStore(sd, s, p, n - 1)[Nth(s, n - 1) := p[n - 1]]
  }

  lemma {:induction false} CardStoreAt(sd: map<int, Sector>, s: int, p: Page, n: nat, t: int)
    requires n <= |p|
    ensures t in CardStore(sd, s, p, n) <==> t in sd || s <= t < s + n
    ensures s <= t < s + n ==> CardStore(sd, s, p, n)[t] == p[t - s]
    ensures !(s <= t < s + n) && t in sd ==> CardStore(sd, s, p, n)[t] == sd[t]
  {
    if n > 0 {
      CardStoreAt(sd, s, p, n - 1, t);
    }
  }

  lemma {:induction false} CardPageAt(sd: map<int, Sector>, s: int, n: nat)
    ensures |CardPage(sd, s, n)| == n
    ensures forall j :: 0 <= j < n ==> CardPage(sd, s, n)[j] == if Nth(s, j) in sd then sd[Nth(s, j)] else []
  {
    if n > 0 {
      CardPageAt(sd, s, n - 1);
    }
  }

  /** A page written out reads back. */
  lemma CardRoundTrip(sd: map<int, Sector>, s: int, p: Page)
    requires |p| == PER_PAGE
    ensures CardPage(CardStore(sd, s, p, PER_PAGE), s, PER_PAGE) == p
  {
    var sd' := CardStore(sd, s, p, PER_PAGE);
    CardPageAt(sd', s, PER_PAGE);
    forall j | 0 <= j < PER_PAGE ensures CardPage(sd', s, PER_PAGE)[j] == p[j] {
      CardStoreAt(sd, s, p, PER_PAGE, Nth(s, j));
    }
  }

  /** A run of sectors elsewhere is not disturbed. */
  lemma CardOther(sd: map<int, Sector>, s: int, p: Page, t: int)
    requires |p| == PER_PAGE && t + PER_PAGE <= s
    ensures CardPage(CardStore(sd, s, p, PER_PAGE), t, PER_PAGE) == CardPage(sd, t, PER_PAGE)
  {
    var sd' := CardStore(sd, s, p, PER_PAGE);
    CardPageAt(sd', t, PER_PAGE);
    CardPageAt(sd, t, PER_PAGE);
    forall j | 0 <= j < PER_PAGE ensures CardPage(sd', t, PER_PAGE)[j] == CardPage(sd, t, PER_PAGE)[j] {
      CardStoreAt(sd, s, p, PER_PAGE, Nth(t, j));
    }
  }

  // ---------------------------------------------------------------- moving a page out

  /** The victim is the first node of the memory list. */
  lemma ListsOut(nodes: seq<Node>, mq: seq<int>, sq: seq<int>, fl: int, home: map<Key, Home>, s: int)
    requires Lists(nodes, mq, sq, fl, home) && mq != [] && Distinct(mq)
    ensures var i := mq[0];
            && 0 <= i < MAX_NODES && i !in sq && i != fl
            && Lists(nodes[i := nodes[i].(addr := s)], Without(mq, 0), sq + [i], fl,
                     home[KeyOf(nodes[i]) := OnCard(i, s)])
  {
    hide Without, Distinct;
    DistinctWithout(mq, 0);
    assert mq[0] in mq;
  }

  lemma FramesOut(bits: Bits, fr: map<int, Key>, home: map<Key, Home>, k: Key, i: int, s: int)
    requires FramesOk(bits, fr, -1, home) && k in home && home[k].InMem?
    ensures FramesOk(bits, fr - {home[k].frame}, home[k].frame, home[k := OnCard(i, s)])
  {
  }

  lemma CardOut(sd: map<int, Sector>, sdEnd: int, home: map<Key, Home>, k: Key, i: int, p: Page)
    requires CardOk(sd, sdEnd, home) && |p| == PER_PAGE
    ensures CardOk(CardStore(sd, sdEnd, p, PER_PAGE), sdEnd + PER_PAGE, home[k := OnCard(i, sdEnd)])
  {
    var sd', home' := CardStore(sd, sdEnd, p, PER_PAGE), home[k := OnCard(i, sdEnd)];
    forall k', j | k' in home' && home'[k'].OnCard? && 0 <= j < PER_PAGE ensures Nth(home'[k'].sector, j) in sd' {
      CardStoreAt(sd, sdEnd, p, PER_PAGE, Nth(home'[k'].sector, j));
    }
  }

  /** Writing a page to the card hides nothing from its process. */
  lemma ViewOut(frames: seq<Page>, sd: map<int, Sector>, sdEnd: int, home: map<Key, Home>, k: Key, i: int)
    requires CardOk(sd, sdEnd, home) && PagesOk(frames) && k in home && home[k].InMem? && 0 <= home[k].frame < FRAMES
    ensures View(frames, CardStore(sd, sdEnd, frames[home[k].frame], PER_PAGE), home[k := OnCard(i, sdEnd)])
            == View(frames, sd, home)
  {
    hide CardPage, CardStore;
    var p := frames[home[k].frame];
    var sd', home' := CardStore(sd, sdEnd, p, PER_PAGE), home[k := OnCard(i, sdEnd)];
    CardRoundTrip(sd, sdEnd, p);
    forall k' | k' in home ensures Contents(frames, sd', home'[k']) == Contents(frames, sd, home[k']) {
      if k' != k && home[k'].OnCard? {
        CardOther(sd, sdEnd, p, home[k'].sector);
      }
    }
  }

  // ---------------------------------------------------------------- moving a page in

  lemma ListsIn(nodes: seq<Node>, mq: seq<int>, sq: seq<int>, fl: int, home: map<Key, Home>, f: int)
    requires Lists(nodes, mq, sq, fl, home) && fl >= 0
    ensures fl < MAX_NODES && fl !in mq && fl !in sq && KeyOf(nodes[fl]) in home
            && home[KeyOf(nodes[fl])] == OnCard(fl, nodes[fl].addr)
    ensures Lists(nodes[fl := nodes[fl].(addr := f)], mq + [fl], sq, -1, home[KeyOf(nodes[fl]) := InMem(fl, f)])
  {
    assert fl == fl >= 0;
  }

  lemma FramesIn(bits: Bits, fr: map<int, Key>, f: int, home: map<Key, Home>, k: Key, i: int)
    requires FramesOk(bits, fr, f, home) && f >= 0 && (k in home ==> home[k].OnCard?)
    ensures FramesOk(bits, fr[f := k], -1, home[k := InMem(i, f)])
  {
  }

  lemma CardIn(sd: map<int, Sector>, sdEnd: int, home: map<Key, Home>, k: Key, i: int, f: int)
    requires CardOk(sd, sdEnd, home)
    ensures CardOk(sd, sdEnd, home[k := InMem(i, f)])
  {
  }

  /** Filling the held frame shows the page that frame is given to, and disturbs no other. */
  lemma ViewIn(bits: Bits, frames: seq<Page>, sd: map<int, Sector>, fr: map<int, Key>, f: int, home: map<Key, Home>,
               k: Key, i: int, p: Page)
    requires FramesOk(bits, fr, f, home) && |frames| == FRAMES && f >= 0
    ensures View(frames[f := p], sd, home[k := InMem(i, f)]) == View(frames, sd, home)[k := p]
  {
  }

  // ---------------------------------------------------------------- leaf entries

  /** The leaf entry of page k is rewritten, and the page's home changes to match. */
  lemma PteWrite(pt: S.Memory, root: S.Roots, tloc: map<S.Frame, S.Place>, nodes: seq<Node>, home: map<Key, Home>,
                 k: Key, h: Home, s: S.Slot, e: S.Word, nodes': seq<Node>)
    requires PtesOk(pt, root, tloc, nodes, home) && |nodes'| == MAX_NODES
    requires k.uva < S.USER_TOP && S.PageOf(k.uva) == k.uva && S.LeafSlot(pt, root, k.pid, k.uva) == S.Some(s)
    requires 0 <= h.node < MAX_NODES && nodes'[h.node].pte == s
    requires S.Names(e) == if h.InMem? then S.Some(Pfn(h.frame)) else S.None
    requires forall k' :: k' in home && k' != k ==> nodes'[home[k'].node].pte == nodes[home[k'].node].pte
    ensures PtesOk(pt[s := e], root, tloc, nodes', home[k := h])
  {
    hide S.Tables, S.LeafSlot, S.Translate, S.PageOf, S.Names, S.GetAttr, S.GetPfn, Pfn, PresentOk;
    var pt', home' := pt[s := e], home[k := h];
    S.LeafEntry(pt, root, tloc, k.pid, k.uva, e, k.pid, k.uva);
    forall k' | k' in home' ensures PteOk(pt', root, nodes', k', home'[k']) {
      S.LeafEntry(pt, root, tloc, k.pid, k.uva, e, k'.pid, k'.uva);
      assert k' != k ==> PteOk(pt, root, nodes, k', home[k']);
    }
    PresentWrite(pt, root, tloc, home, k, h, s, e);
  }

  lemma PresentWrite(pt: S.Memory, root: S.Roots, tloc: map<S.Frame, S.Place>, home: map<Key, Home>, k: Key, h: Home,
                     s: S.Slot, e: S.Word)
    requires S.Tables(pt, root, tloc) && PresentOk(pt, root, home)
    requires k.uva < S.USER_TOP && S.PageOf(k.uva) == k.uva && S.LeafSlot(pt, root, k.pid, k.uva) == S.Some(s)
    requires h.InMem? <==> S.Names(e).Some?
    ensures PresentOk(pt[s := e], root, home[k := h])
  {
    hide S.Tables, S.LeafSlot, S.Translate, S.PageOf, S.Names, S.GetAttr, S.GetPfn, Pfn;
    var pt', home' := pt[s := e], home[k := h];
    forall pid, va | va < S.USER_TOP && S.Translate(pt', root, pid, va).Some?
      ensures Key(pid, S.PageOf(va)) in home' && home'[Key(pid, S.PageOf(va))].InMem?
    {
      S.LeafEntry(pt, root, tloc, k.pid, k.uva, e, pid, va);
    }
  }

  // ---------------------------------------------------------------- the clock

  predicate Marked(pt: S.Memory, s: S.Slot) {
    s in pt && S.GetAttr(pt[s], S.ACCESSED_DIRTY) != 0
  }

  function Rotated(q: seq<int>, r: int): seq<int>
    requires 0 <= r <= |q|
  {
    q[r..] + q[..r]
  }

  lemma RotatedStep(q: seq<int>, r: int)
    requires 0 <= r < |q|
    ensures Rotated(q, r)[0] == q[r] && Rotated(q, r)[1..] + [Rotated(q, r)[0]] == Rotated(q, r + 1)
  {
  }

  lemma RotatedSame(q: seq<int>, r: int)
    requires 0 <= r <= |q|
    ensures forall x :: x in Rotated(q, r) <==> x in q
    ensures |Rotated(q, r)| == |q|
  {
    assert q == q[..r] + q[r..];
  }

  lemma ListsSame(nodes: seq<Node>, mq: seq<int>, sq: seq<int>, fl: int, home: map<Key, Home>, mq': seq<int>)
    requires Lists(nodes, mq, sq, fl, home) && forall x :: x in mq' <==> x in mq
    ensures Lists(nodes, mq', sq, fl, home)
  {
  }

  /** What the invariant says of one listed node. */
  lemma NodeAt(nodes: seq<Node>, mq: seq<int>, sq: seq<int>, fl: int, home: map<Key, Home>, i: int)
    requires Lists(nodes, mq, sq, fl, home)
    ensures |nodes| == MAX_NODES
    ensures i in mq ==>
              0 <= i < MAX_NODES && KeyOf(nodes[i]) in home && home[KeyOf(nodes[i])] == InMem(i, nodes[i].addr)
    ensures i in sq || i == fl >= 0 ==>
              0 <= i < MAX_NODES && KeyOf(nodes[i]) in home && home[KeyOf(nodes[i])] == OnCard(i, nodes[i].addr)
  {
  }

  /** A page's leaf entry, as its node reaches it. */
  lemma PteAt(pt: S.Memory, root: S.Roots, tloc: map<S.Frame, S.Place>, nodes: seq<Node>, home: map<Key, Home>, k: Key)
    requires PtesOk(pt, root, tloc, nodes, home) && k in home
    ensures 0 <= home[k].node < MAX_NODES && nodes[home[k].node].pte in pt && k.uva < S.USER_TOP
            && S.PageOf(k.uva) == k.uva
    ensures S.LeafSlot(pt, root, k.pid, k.uva) == S.Some(nodes[home[k].node].pte)
    ensures S.Names(pt[nodes[home[k].node].pte]) == if home[k].InMem? then S.Some(Pfn(home[k].frame)) else S.None
  {
    hide S.Tables, S.LeafSlot, S.Translate, S.PageOf, S.Names, S.GetAttr, S.GetPfn, Pfn, PresentOk;
    assert PteOk(pt, root, nodes, k, home[k]);
    S.LeafTable(pt, root, tloc, k.pid, k.uva);
  }

  /** Two pages never share a leaf entry. */
  lemma PtesApart(pt: S.Memory, root: S.Roots, tloc: map<S.Frame, S.Place>, nodes: seq<Node>, home: map<Key, Home>,
                  k: Key, k': Key)
    requires PtesOk(pt, root, tloc, nodes, home) && k in home && k' in home && k != k'
    ensures 0 <= home[k].node < MAX_NODES && 0 <= home[k'].node < MAX_NODES
    ensures nodes[home[k].node].pte != nodes[home[k'].node].pte
  {
    hide S.Tables, S.LeafSlot, S.Translate, S.PageOf, S.Names, S.GetAttr, S.GetPfn, Pfn, PresentOk, PteOk;
    PteAt(pt, root, tloc, nodes, home, k);
    PteAt(pt, root, tloc, nodes, home, k');
    if nodes[home[k].node].pte == nodes[home[k'].node].pte {
      Tabled(pt, root, tloc, nodes, home);
      S.LeafInjective(pt, root, tloc, k.pid, k.uva, k'.pid, k'.uva);
    }
  }

  lemma Tabled(pt: S.Memory, root: S.Roots, tloc: map<S.Frame, S.Place>, nodes: seq<Node>, home: map<Key, Home>)
    requires PtesOk(pt, root, tloc, nodes, home)
    ensures S.Tables(pt, root, tloc)
  {
  }

  /** Changing only the marks of one page's entry keeps the tables right and every other entry as it was. */
  lemma Remark(pt: S.Memory, root: S.Roots, tloc: map<S.Frame, S.Place>, nodes: seq<Node>, home: map<Key, Home>, k: Key,
               e: S.Word)
    requires PtesOk(pt, root, tloc, nodes, home) && k in home
    requires 0 <= home[k].node < MAX_NODES && nodes[home[k].node].pte in pt
    requires S.Names(e) == S.Names(pt[nodes[home[k].node].pte])
    ensures PtesOk(pt[nodes[home[k].node].pte := e], root, tloc, nodes, home)
  {
    hide S.Tables, S.LeafSlot, S.Translate, S.PageOf, S.Names, S.GetAttr, S.GetPfn, Pfn, PresentOk, PteOk;
    PteAt(pt, root, tloc, nodes, home, k);
    PteWrite(pt, root, tloc, nodes, home, k, home[k], nodes[home[k].node].pte, e, nodes);
    assert home[k := home[k]] == home;
  }

  /** One turn of the clock's loop at the page of list node i. */
  lemma ClockStep(pt: S.Memory, root: S.Roots, tloc: map<S.Frame, S.Place>, nodes: seq<Node>, mq: seq<int>,
                  sq: seq<int>, fl: int,
                  home: map<Key, Home>, i: int)
    requires PtesOk(pt, root, tloc, nodes, home) && Lists(nodes, mq, sq, fl, home) && i in mq
    ensures 0 <= i < MAX_NODES && nodes[i].pte in pt
    ensures var pt' := pt[nodes[i].pte := S.ClearAttr(pt[nodes[i].pte], S.ACCESSED_DIRTY)];
            && PtesOk(pt', root, tloc, nodes, home) && !Marked(pt', nodes[i].pte)
            && forall j :: j in mq && j != i ==>
                 0 <= j < MAX_NODES && (Marked(pt', nodes[j].pte) <==> Marked(pt, nodes[j].pte))
  {
    hide S.Tables, S.LeafSlot, S.Translate, S.PageOf, S.Names, S.GetAttr, S.GetPfn, S.ClearAttr, Pfn, PtesOk, Lists;
    NodeAt(nodes, mq, sq, fl, home, i);
    var k := KeyOf(nodes[i]);
    PteAt(pt, root, tloc, nodes, home, k);
    S.MarksKeepNames(pt[nodes[i].pte]);
    Remark(pt, root, tloc, nodes, home, k, S.ClearAttr(pt[nodes[i].pte], S.ACCESSED_DIRTY));
    forall j | j in mq && j != i ensures 0 <= j < MAX_NODES && nodes[j].pte != nodes[i].pte {
      NodeAt(nodes, mq, sq, fl, home, j);
      PtesApart(pt, root, tloc, nodes, home, k, KeyOf(nodes[j]));
    }
  }

  /** Page `ev`, if any, went from its frame to sector s; no other page moved. */
  ghost predicate Evicted(home: map<Key, Home>, home': map<Key, Home>, ev: S.Option<Key>, s: int) {
    match ev
    case None => home' == home
    case Some(k) => k in home && home[k].InMem? && home' == home[k := OnCard(home[k].node, s)]
  }

  /** The sweep stops at the first unmarked node, or back at the first node if all are marked. */
  ghost predicate FirstUnmarked(pt: S.Memory, nodes: seq<Node>, q: seq<int>, r: int)
    requires forall j :: 0 <= j < |q| ==> 0 <= q[j] < |nodes|
  {
    && 0 <= r <= |q|
    && (forall j :: 0 <= j < r ==> Marked(pt, nodes[q[j]].pte))
    && (r < |q| ==> !Marked(pt, nodes[q[r]].pte))
  }

  lemma FramesTake(bits: Bits, fr: map<int, Key>, home: map<Key, Home>, f: int)
    requires FramesOk(bits, fr, -1, home) && 0 <= f < FRAMES && !Bit(bits, f)
    ensures FramesOk(SetBit(bits, f), fr, f, home)
  {
    hide Bit, SetBit;
    forall g | 0 <= g < FRAMES ensures Bit(SetBit(bits, f), g) <==> g in fr || g == f {
      BitAfterSet(bits, f, g);
    }
  }

  /** Of the inactive nodes only the first may have become active. */
  ghost predicate FirstTaken(nodes: seq<Node>, nodes': seq<Node>) {
    && |nodes'| == |nodes|
    && forall j :: 0 <= j < |nodes| && nodes'[j].active && !nodes[j].active ==>
         forall i :: 0 <= i < j ==> nodes[i].active
  }

  // ---------------------------------------------------------------- the whole state

  /** The globals of kernel/mm/mm.c, without the list links. */
  datatype Kernel = Kernel(bits: Bits, nodes: seq<Node>, frames: seq<Page>, sd: map<int, Sector>, sdEnd: int,
                           pt: S.Memory, root: S.Roots)

  /** What the proof remembers: the two lists, the node and the frame in transit, where each page is. */
  datatype Shadow = Shadow(mq: seq<int>, sq: seq<int>, fl: int, held: int, home: map<Key, Home>, fr: map<int, Key>,
                           tloc: map<S.Frame, S.Place>)

  /** The invariant apart from the page tables. */
  ghost predicate Kept(k: Kernel, g: Shadow) {
    && Lists(k.nodes, g.mq, g.sq, g.fl, g.home) && FramesOk(k.bits, g.fr, g.held, g.home)
       && CardOk(k.sd, k.sdEnd, g.home)
    && PagesOk(k.frames) && -1 <= g.fl && -1 <= g.held
  }

  ghost predicate Sound(k: Kernel, g: Shadow) {
    Kept(k, g) && PtesOk(k.pt, k.root, g.tloc, k.nodes, g.home)
  }

  /** What every process sees in each of its pages. */
  ghost function Seen(k: Kernel, g: Shadow): map<Key, Page> {
    View(k.frames, k.sd, g.home)
  }

  /** The first page of the memory list goes to the card. */
  ghost predicate CanExpel(k: Kernel, g: Shadow) {
    && g.mq != [] && 0 <= g.mq[0] < |k.nodes|
    && var n := k.nodes[g.mq[0]];
       && g.mq[0] !in g.sq && g.mq[0] != g.fl && n.pte in k.pt && 0 <= n.addr < FRAMES == |k.frames|
          && |k.frames[n.addr]| == PER_PAGE
       && KeyOf(n) in g.home && g.home[KeyOf(n)] == InMem(g.mq[0], n.addr)
  }

  function ExpelKernel(k: Kernel, i: int): Kernel
    requires 0 <= i < |k.nodes| && k.nodes[i].pte in k.pt && 0 <= k.nodes[i].addr < |k.frames|
             && |k.frames[k.nodes[i].addr]| == PER_PAGE
  {
    var n := k.nodes[i];
    k.(nodes := k.nodes[i := n.(addr := k.sdEnd)], sd := CardStore(k.sd, k.sdEnd, k.frames[n.addr], PER_PAGE),
       sdEnd := k.sdEnd + PER_PAGE, pt := k.pt[n.pte := S.ClearAttr(k.pt[n.pte], S.PRESENT)])
  }

  ghost function ExpelShadow(k: Kernel, g: Shadow): Shadow
    requires CanExpel(k, g)
  {
    var i := g.mq[0];
    var n := k.nodes[i];
    g.(mq := Without(g.mq, 0), sq := g.sq + [i], held := n.addr,
       home := g.home[KeyOf(n) := OnCard(i, k.sdEnd)], fr := g.fr - {n.addr})
  }

  lemma ExpelEffect(k: Kernel, g: Shadow)
    requires Sound(k, g) && g.mq != [] && Distinct(g.mq) && g.held == -1
    ensures CanExpel(k, g) && Sound(ExpelKernel(k, g.mq[0]), ExpelShadow(k, g))
    ensures Seen(ExpelKernel(k, g.mq[0]), ExpelShadow(k, g)) == Seen(k, g)
  {
    hide Lists, PtesOk, FramesOk, CardOk, PagesOk, View, CardStore, S.ClearAttr, KeyOf;
    var i := g.mq[0];
    NodeAt(k.nodes, g.mq, g.sq, g.fl, g.home, i);
    var key, f := KeyOf(k.nodes[i]), k.nodes[i].addr;
    FrameAt(k.bits, g.fr, g.held, g.home, key);
    WholePage(k.frames, f);
    ListsOut(k.nodes, g.mq, g.sq, g.fl, g.home, k.sdEnd);
    FramesOut(k.bits, g.fr, g.home, key, i, k.sdEnd);
    CardOut(k.sd, k.sdEnd, g.home, key, i, k.frames[f]);
    ViewOut(k.frames, k.sd, k.sdEnd, g.home, key, i);
    PteOut(k.pt, k.root, g.tloc, k.nodes, g.home, key, k.sdEnd);
  }

  /** Where a new page's contents come from: the lowest free frame as it was left, or, with every frame taken, the
      frame of the page evicted for it. */
  ghost predicate Inherits(k: Kernel, g: Shadow, f: int, ev: S.Option<Key>) {
    match ev
    case None => f !in g.fr && forall j :: 0 <= j < f ==> j in g.fr
    case Some(key) =>
      && (forall j :: 0 <= j < FRAMES ==> j in g.fr)
      && key in g.home && g.home[key].InMem? && g.home[key].frame == f
      && 0 <= f < |k.frames| && key in Seen(k, g) && Seen(k, g)[key] == k.frames[f]
  }

  lemma BitsOf(k: Kernel, g: Shadow)
    requires Sound(k, g) && g.held == -1
    ensures FRAMES <= 8 * |k.bits| && forall f :: 0 <= f < FRAMES ==> (Bit(k.bits, f) <==> f in g.fr)
  {
  }

  /** With every frame taken, some page is in memory. */
  lemma FullMeansListed(k: Kernel, g: Shadow)
    requires Sound(k, g) && forall f :: 0 <= f < FRAMES ==> f in g.fr
    ensures g.mq != []
  {
    assert 0 in g.fr && g.fr[0] in g.home;
  }

  /** A clear bit's frame is handed out. */
  lemma TakeEffect(k: Kernel, g: Shadow, f: int)
    requires Sound(k, g) && g.held == -1 && 0 <= f < FRAMES && FRAMES <= 8 * |k.bits| && !Bit(k.bits, f)
    ensures Sound(k.(bits := SetBit(k.bits, f)), g.(held := f))
  {
    hide Lists, PtesOk, CardOk, PagesOk, FramesOk, Bit, SetBit;
    FramesTake(k.bits, g.fr, g.home, f);
  }

  /** `delete_list_node`, for the node at c on the list q of h. */
  method DeleteListNode(next: map<int, int>, prev: map<int, int>, x: int, ghost h: int, ghost q: seq<int>, ghost c: nat,
                        ghost h': int, ghost q': seq<int>)
    returns (next': map<int, int>, prev': map<int, int>)
    requires Pair(next, prev, h, q, h', q') && c < |q| && q[c] == x
    ensures Pair(next', prev', h, Without(q, c), h', q')
    ensures x !in next' && x !in prev' && x !in Without(q, c) && x !in q'
  {
    hide Pair, Without;
    PairUnlink(next, prev, h, q, c, h', q');
    next' := next[prev[x] := next[x]];
    prev' := prev[next[x] := prev[x]];
    next', prev' := next' - {x}, prev' - {x};
  }

  /** `insert_list_tail` */
  method InsertListTail(next: map<int, int>, prev: map<int, int>, x: int, h: int, ghost q: seq<int>, ghost h': int,
                        ghost q': seq<int>)
    returns (next': map<int, int>, prev': map<int, int>)
    requires Pair(next, prev, h, q, h', q') && x != h && x !in q && x != h' && x !in q'
    ensures Pair(next', prev', h, q + [x], h', q')
  {
    hide Pair;
    PairTail(next, prev, h, q, x, h', q');
    LastIs(next, prev, h, q, h', q');
    next' := next[x := h];
    prev' := prev[x := prev[h]];
    next' := next'[prev[h] := x];
    prev' := prev'[h := x];
    assert next' == next[prev[h] := x][x := h];
  }

  class Pager {
    var k: Kernel
    var next: map<int, int>
    var prev: map<int, int>
    ghost var g: Shadow

    ghost predicate Inv()
      reads this
    {
      Sound(k, g) && Pair(next, prev, MEM, g.mq, CARD, g.sq)
    }

    /** No page and no frame is in transit. */
    ghost predicate Valid()
      reads this
    {
      Inv() && g.fl == -1 && g.held == -1
    }

    ghost function Memory(): map<Key, Page>
      reads this
    {
      Seen(k, g)
    }

    /** `init_mem_manager`: all nodes inactive, no frame taken, swap space from sector `start` on. */
    constructor (nodes: seq<Node>, frames: seq<Page>, sd: map<int, Sector>, start: int, pt: S.Memory)
      requires |nodes| == MAX_NODES && PagesOk(frames)
      ensures Valid() && Memory() == map[] && k.sdEnd == start && k.root == map[] && g.home == map[] && g.tloc == map[]
      ensures k.pt == pt && forall i :: 0 <= i < |k.nodes| ==> !k.nodes[i].active
    {
      ghost var g0 := Shadow([], [], -1, -1, map[], map[], map[]);
      var bits := seq(FRAMES / 8, i => 0 as bv8);
      var idle := seq(MAX_NODES, i requires 0 <= i < MAX_NODES => nodes[i].(active := false));
      k, g := Kernel(bits, idle, frames, sd, start, pt, map[]), g0;
      next, prev := map[MEM := MEM, CARD := CARD], map[MEM := MEM, CARD := CARD];
      ClearBits(bits);
      NoRoots(pt);
    }

    /** `forward_list_head` on the memory list. */
    method ForwardListHead()
      requires Pair(next, prev, MEM, g.mq, CARD, g.sq) && g.mq != []
      modifies this`next, this`prev, this`g
      ensures g == old(g).(mq := old(g.mq)[1..] + [old(g.mq)[0]]) && Pair(next, prev, MEM, g.mq, CARD, g.sq)
    {
      ghost var mq := g.mq;
      RingNodes(next, prev, MEM, mq);
      assert mq[0] in mq && (|mq| > 1 ==> mq[1] in mq);
      if next[MEM] == MEM || next[next[MEM]] == MEM {
        assert |mq| == 1 ==> mq == mq[1..] + [mq[0]];
        return;
      }
      PairRotate(next, prev, MEM, mq, CARD, g.sq);
      var node1, node2, node3 := prev[MEM], next[MEM], next[next[MEM]];
      next := next[MEM := node3][node2 := MEM][node1 := node2];
      prev := prev[node3 := MEM][MEM := node2][node2 := node1];
      g := g.(mq := mq[1..] + [mq[0]]);
    }

    /** The loop of `swap_page_out`: it clears marks until it meets a page that has none. */
    method Clock(ghost q: seq<int>) returns (ghost r: int)
      requires Inv() && q == g.mq != []
      modifies this`next, this`prev, this`g, this`k
      ensures forall j :: 0 <= j < |q| ==> 0 <= q[j] < |k.nodes|
      ensures 0 <= r <= |q| && Inv() && FirstUnmarked(old(k.pt), k.nodes, q, r) && g == old(g).(mq := Rotated(q, r))
              && g.mq != []
      ensures k == old(k).(pt := k.pt)
    {
      hide Lists, PtesOk, Pair, Marked, Rotated, FramesOk, CardOk, PagesOk, Swept;
      r := 0;
      MembersAre(k.nodes, q, g.sq, g.fl, g.home);
      ghost var pt0 := k.pt;
      RotatedEnds(q);
      SweepStart(pt0, k.nodes, q);
      HeadIs(next, prev, q, g.sq);
      while Marked(k.pt, k.nodes[next[MEM]].pte)
        invariant 0 <= r <= |q| && g == old(g).(mq := Rotated(q, r)) && g.mq != [] && k == old(k).(pt := k.pt)
        invariant Inv() && MEM in next && next[MEM] == g.mq[0] && 0 <= g.mq[0] < MAX_NODES
        invariant Swept(pt0, k.pt, k.nodes, q, r)
        decreases |q| - r
      {
        var p := k.nodes[next[MEM]].pte;
        SweepStep(pt0, k.pt, k.root, g.tloc, k.nodes, q, g.mq, g.sq, g.fl, g.home, next, prev, r);
        RotatedStep(q, r);
        k := k.(pt := k.pt[p := S.ClearAttr(k.pt[p], S.ACCESSED_DIRTY)]);
        ForwardListHead();
        HeadIs(next, prev, g.mq, g.sq);
        MembersAre(k.nodes, g.mq, g.sq, g.fl, g.home);
        r := r + 1;
      }
      SweepEnd(pt0, k.pt, k.nodes, q, g.mq, r);
    }

    /** `swap_page_out`: frees the frame of the clock's victim. */
    method SwapPageOut() returns (f: int, ghost ev: Key, ghost r: int)
      requires Inv() && g.held == -1 && g.mq != []
      modifies this
      ensures forall j :: 0 <= j < |old(g.mq)| ==> 0 <= old(g.mq)[j] < |old(k.nodes)|
      ensures FirstUnmarked(old(k.pt), old(k.nodes), old(g.mq), r)
      ensures ev == KeyOf(old(k.nodes)[old(g.mq)[if r < |old(g.mq)| then r else 0]])
      ensures Inv() && g.held == f && 0 <= f < FRAMES && Memory() == old(Memory())
      ensures Evicted(old(g.home), g.home, S.Some(ev), old(k.sdEnd)) && old(g.home)[ev].frame == f
      ensures g.fl == old(g.fl) && g.tloc == old(g.tloc) && k.root == old(k.root) && k.frames == old(k.frames)
      ensures |k.nodes| == |old(k.nodes)| && (0 <= g.fl < |k.nodes| ==> k.nodes[g.fl] == old(k.nodes)[g.fl])
      ensures forall i :: 0 <= i < |k.nodes| ==> k.nodes[i].active == old(k.nodes)[i].active
    {
      hide Sound, View, Pair, Rotated, FirstUnmarked, CardStore, S.ClearAttr, KeyOf, Without;
      r := Clock(g.mq);
      RotatedHead(old(g.mq), r);
      f, ev := Expel();
    }

    /** The rest of `swap_page_out`: the first page of the memory list goes to the card. */
    method Expel() returns (f: int, ghost ev: Key)
      requires Inv() && g.held == -1 && g.mq != []
      modifies this
      ensures Inv() && CanExpel(old(k), old(g)) && k == ExpelKernel(old(k), old(g).mq[0])
              && g == ExpelShadow(old(k), old(g))
      ensures f == g.held && 0 <= f < FRAMES && Memory() == old(Memory())
      ensures ev == KeyOf(old(k).nodes[old(g).mq[0]])
    {
      hide Sound, Seen, Pair, CardStore, S.ClearAttr, KeyOf, Without, Distinct;
      HeadIs(next, prev, g.mq, g.sq);
      ExpelEffect(k, g);
      var i := next[MEM];
      var n := k.nodes[i];
      f, ev := n.addr, KeyOf(n);
      next, prev := DeleteListNode(next, prev, i, MEM, g.mq, 0, CARD, g.sq);
      k := k.(pt := k.pt[n.pte := S.ClearAttr(k.pt[n.pte], S.PRESENT)]);
      k := k.(sd := CardStore(k.sd, k.sdEnd, k.frames[f], PER_PAGE));
      k := k.(nodes := k.nodes[i := n.(addr := k.sdEnd)], sdEnd := k.sdEnd + PER_PAGE);
      g := ExpelShadow(old(k), g);
      PairSwap(next, prev, MEM, g.mq, CARD, old(g.sq));
      next, prev := InsertListTail(next, prev, i, CARD, old(g.sq), MEM, g.mq);
      PairSwap(next, prev, CARD, g.sq, MEM, g.mq);
    }

    /** `alloc_user_page`: the lowest free frame, or the victim's.  The list `swap_page_out` asserts to be
        non-empty is so whenever this calls it. */
    method AllocUserPage() returns (f: int, ghost ev: S.Option<Key>)
      requires Inv() && g.held == -1
      modifies this
      ensures Inv() && g.held == f && 0 <= f < FRAMES && Memory() == old(Memory())
      ensures Evicted(old(g.home), g.home, ev, old(k.sdEnd)) && Inherits(old(k), old(g), f, ev)
      ensures g.fl == old(g.fl) && g.tloc == old(g.tloc) && k.root == old(k.root) && k.frames == old(k.frames)
      ensures |k.nodes| == |old(k.nodes)| && (0 <= g.fl < |k.nodes| ==> k.nodes[g.fl] == old(k.nodes)[g.fl])
      ensures forall i :: 0 <= i < |k.nodes| ==> k.nodes[i].active == old(k.nodes)[i].active
    {
      hide Sound, View, Pair, FirstUnmarked, Lists, FramesOk, KeyOf;
      BitsOf(k, g);
      Shows(k, g);
      var idx := FindFree(k.bits, |k.bits|, FRAMES);
      if idx == -1 {
        FullMeansListed(k, g);
        assert forall j :: 0 <= j < FRAMES ==> j in old(g.fr);
        ghost var key, r;
        f, key, r := SwapPageOut();
        return f, S.Some(key);
      }
      TakeEffect(k, g, idx);
      k := k.(bits := SetBit(k.bits, idx));
      g := g.(held := idx);
      return idx, S.None;
    }

    /** `swap_page_in`, for the node at c on the card list. */
    method SwapPageIn(i: int, ghost c: nat) returns (f: int, ghost ev: S.Option<Key>)
      requires Valid() && c < |g.sq| && g.sq[c] == i && 0 <= i < |k.nodes|
      modifies this
      ensures Valid() && Memory() == old(Memory())
      ensures var key := KeyOf(old(k.nodes)[i]);
              && key in old(g.home) && old(g.home)[key].OnCard? && key in g.home && g.home[key] == InMem(i, f)
              && Evicted(old(g.home), g.home[key := old(g.home)[key]], ev, old(k.sdEnd))
      ensures g.tloc == old(g.tloc) && k.root == old(k.root)
      ensures |k.nodes| == |old(k.nodes)| && k.nodes[i].pte in k.pt && S.Usable(k.pt[k.nodes[i].pte])
    {
      hide Sound, Seen, Pair, Without, KeyOf, CardPage, S.SetAttr, S.SetPfn, Pfn, FillPage;
      SecondOf(next, prev, g.mq, g.sq);
      PluckEffect(k, g, c);
      PairSwap(next, prev, MEM, g.mq, CARD, g.sq);
      next, prev := DeleteListNode(next, prev, i, CARD, g.sq, c, MEM, g.mq);
      g := g.(sq := Without(g.sq, c), fl := i);
      PairSwap(next, prev, CARD, g.sq, MEM, g.mq);
      assert Seen(k, g) == old(Seen(k, g));
      f, ev := AllocUserPage();
      ghost var k1, g1 := k, g;
      AdmitEffect(k, g);
      var n := k.nodes[i];
      k := k.(frames := k.frames[f := CardPage(k.sd, n.addr, PER_PAGE)]);
      k := k.(nodes := k.nodes[i := n.(addr := f)]);
      k := k.(pt := k.pt[n.pte := FillPage(k.pt[n.pte], f)]);
      FillUsable(k1.pt[n.pte], f);
      g := AdmitShadow(k1, g1);
      next, prev := InsertListTail(next, prev, i, MEM, g1.mq, CARD, g1.sq);
    }

    /** `search_list_node` */
    method SearchListNode(head: int, uva: S.Word, pid: int) returns (p: int, found: bool, ghost c: nat)
      requires Valid() && (head == MEM || head == CARD)
      ensures found ==> 0 <= p < |k.nodes| && KeyOf(k.nodes[p]) == Key(pid, uva)
      ensures found ==> (if head == MEM then c < |g.mq| && g.mq[c] == p else c < |g.sq| && g.sq[c] == p)
      ensures found == (Key(pid, uva) in g.home && g.home[Key(pid, uva)].InMem? == (head == MEM))
    {
      hide Pair, Kept, PtesOk;
      ghost var q := if head == MEM then g.mq else g.sq;
      SearchSetup(k, g, next, prev);
      p, c := next[head], 0;
      while p != head
        invariant 0 <= c <= |q| && p == After(head, q, c - 1)
        invariant forall j :: 0 <= j < c ==> KeyOf(k.nodes[q[j]]) != Key(pid, uva)
        decreases |q| - c
      {
        if k.nodes[p].uva == uva && k.nodes[p].pid == pid {
          FoundIs(k, g, c, head == MEM);
          return p, true, c;
        }
        RingStep(next, prev, g, head, c);
        p, c := next[p], c + 1;
      }
      NotFound(k, g, Key(pid, uva), head == MEM);
      found := false;
    }

    /** One level of the walk in `alloc_page_helper`: entry i of the table t at place p, filled with the
        cleared kernel page kf if it was zero. */
    method EnsureTable(ghost p: S.Place, t: S.Word, i: S.Word, kf: S.Word) returns (child: S.Word)
      requires Valid() && !p.Leaf? && S.IsPlace(p) && S.IsPlace(S.Child(p, i))
               && S.TableAt(k.pt, k.root, p) == S.Some(t)
      requires S.Frame(kf) !in g.tloc && kf <= S.PFN_MASK
      modifies this`k, this`g
      ensures Valid() && S.TableAt(k.pt, k.root, S.Child(p, i)) == S.Some(child)
      ensures k == old(k).(pt := k.pt) && g == old(g).(tloc := g.tloc)
      ensures forall f :: f in g.tloc ==> f in old(g.tloc) || f == S.Frame(kf)
    {
      hide Kept, PtesOk, Pair, S.Tables, S.TableAt, S.GetPfn, S.SetPfn, S.SetAttr, S.IsPlace, S.Hung, S.IsCleared,
           S.CanHang;
      Tabled(k.pt, k.root, g.tloc, k.nodes, g.home);
      S.ChildEntry(k.pt, k.root, g.tloc, p, i);
      if k.pt[S.Slot(t, i)] == 0 {
        var e := S.SetAttr(S.SetPfn(k.pt[S.Slot(t, i)], kf), S.PRESENT);
        var pt' := S.ClearPgdir(k.pt[S.Slot(t, i) := e], kf);
        S.TableEntry(kf);
        S.HungBy(k.pt, k.root, g.tloc, p, i, kf, e, pt');
        HangEffect(k, g, p, i, kf, e, pt');
        k, g := k.(pt := pt'), g.(tloc := g.tloc[S.Frame(kf) := S.Child(p, i)]);
        Tabled(k.pt, k.root, g.tloc, k.nodes, g.home);
        S.ChildEntry(k.pt, k.root, g.tloc, p, i);
      }
      child := S.GetPfn(k.pt[S.Slot(t, i)]);
    }

    /** `alloc_page_helper`: gives an unmapped page a frame, growing the tables with the kernel pages kf2 and
        kf1 where the walk needs them. */
    method AllocPageHelper(pid: int, va: S.Word, kf2: S.Word, kf1: S.Word) returns (f: int, ghost ev: S.Option<Key>)
      requires Valid() && pid in k.root && 0 < va < S.USER_TOP && S.PageOf(va) == va && Key(pid, va) !in g.home
      requires S.Frame(kf2) !in g.tloc && S.Frame(kf1) !in g.tloc && kf1 != kf2 && kf1 <= S.PFN_MASK
               && kf2 <= S.PFN_MASK
      requires exists i :: 0 <= i < |k.nodes| && !k.nodes[i].active
      modifies this
      ensures Valid() && 0 <= f < FRAMES
      ensures S.Translate(k.pt, k.root, pid, va) == S.Some(Pfn(f))
      ensures Key(pid, va) in g.home && Evicted(old(g.home), g.home - {Key(pid, va)}, ev, old(k.sdEnd))
      ensures |old(k.frames)| == FRAMES && Memory() == old(Memory())[Key(pid, va) := old(k.frames)[f]]
      ensures Inherits(old(k), old(g), f, ev)
      ensures (forall j :: 0 <= j < FRAMES ==> j in old(g.fr)) ==>
                ev.Some? && ev.value in old(Memory()) && Memory()[Key(pid, va)] == old(Memory())[ev.value]
      ensures forall t :: t in g.tloc ==> t in old(g.tloc) || t == S.Frame(kf2) || t == S.Frame(kf1)
      ensures k.root == old(k.root) && FirstTaken(old(k.nodes), k.nodes)
      ensures var s := S.LeafSlot(k.pt, k.root, pid, va); s.Some? && s.value in k.pt && S.Usable(k.pt[s.value])
    {
      hide Kept, PtesOk, Pair, View, S.Tables, S.TableAt, S.IsPlace, S.Translate, S.LeafSlot, S.Vpn2, S.Vpn1, S.Vpn0,
           S.PageOf, Evicted;
      S.UserPlaces(pid, va);
      RootIs(k, pid);
      var t1 := EnsureTable(S.Root(pid), k.root[pid], S.Vpn2(va), kf2);
      var t0 := EnsureTable(S.Mid(pid, S.Vpn2(va)), t1, S.Vpn1(va), kf1);
      S.LeafSlotIs(k.pt, k.root, pid, va);
      f, ev := MapNew(pid, va, S.Slot(t0, S.Vpn0(va)));
    }

    /** The end of `alloc_page_helper`, with its call of `create_PageNode`, for leaf entry s. */
    method MapNew(pid: int, va: S.Word, s: S.Slot) returns (f: int, ghost ev: S.Option<Key>)
      requires Valid() && va < S.USER_TOP && S.PageOf(va) == va && Key(pid, va) !in g.home
      requires S.LeafSlot(k.pt, k.root, pid, va) == S.Some(s)
      requires exists i :: 0 <= i < |k.nodes| && !k.nodes[i].active
      modifies this
      ensures Valid() && 0 <= f < FRAMES
      ensures S.Translate(k.pt, k.root, pid, va) == S.Some(Pfn(f))
      ensures Key(pid, va) in g.home && Evicted(old(g.home), g.home - {Key(pid, va)}, ev, old(k.sdEnd))
      ensures |old(k.frames)| == FRAMES && Memory() == old(Memory())[Key(pid, va) := old(k.frames)[f]]
      ensures Inherits(old(k), old(g), f, ev) && g.tloc == old(g.tloc) && k.root == old(k.root)
      ensures s in k.pt && S.Usable(k.pt[s]) && S.LeafSlot(k.pt, k.root, pid, va) == S.Some(s)
      ensures FirstTaken(old(k.nodes), k.nodes)
    {
      hide Kept, PtesOk, Pair, Seen, S.Tables, S.Translate, S.LeafSlot, S.PageOf, FillPage, Pfn;
      Tabled(k.pt, k.root, g.tloc, k.nodes, g.home);
      f, ev := AllocUserPage();
      Tabled(k.pt, k.root, g.tloc, k.nodes, g.home);
      S.SameWalk(old(k.pt), k.pt, k.root, g.tloc, pid, va);
      var i := GetFreePageNode();
      var key := Key(pid, va);
      ghost var k1, g1 := k, g;
      CreateEffect(k, g, i, key, s);
      MinusNew(g.home, key, InMem(i, f));
      k := k.(nodes := k.nodes[i := Node(true, s, pid, f, va)]);
      next, prev := InsertListTail(next, prev, i, MEM, g1.mq, CARD, g1.sq);
      k := k.(pt := k.pt[s := FillPage(k.pt[s], f)]);
      g := CreateShadow(g, i, key);
      Reaches(k, g, key);
      FillUsable(k1.pt[s], f);
      LeafOf(k, g, key);
    }

    /** The accessed and dirty marks of a page in memory, set by the hardware or by the fault handler. */
    method Touch(p: int, ghost c: nat)
      requires Valid() && c < |g.mq| && g.mq[c] == p
      modifies this`k
      ensures Valid() && Memory() == old(Memory()) && 0 <= p < |k.nodes| && k == old(k).(pt := k.pt)
      ensures k.nodes[p].pte in k.pt && S.GetAttr(k.pt[k.nodes[p].pte], S.ACCESSED_DIRTY) == S.ACCESSED_DIRTY
      ensures forall s :: s in k.pt && s != k.nodes[p].pte ==> s in old(k.pt) && k.pt[s] == old(k.pt)[s]
    {
      hide Kept, PtesOk, Pair, Seen, S.Tables, S.Translate, S.LeafSlot, S.PageOf, Pfn, S.SetAttr, S.GetAttr;
      ListedIs(k, g, c);
      TouchEffect(k, g, KeyOf(k.nodes[p]));
      S.MarksKeepNames(k.pt[k.nodes[p].pte]);
      k := k.(pt := k.pt[k.nodes[p].pte := S.SetAttr(k.pt[k.nodes[p].pte], S.ACCESSED_DIRTY)]);
    }

    /** `handle_page_fault` past its permission checks: the page is in memory afterwards, and no page that
        existed has changed. */
    method HandlePageFault(pid: int, stval: S.Word, kf2: S.Word, kf1: S.Word)
      requires Valid() && pid in k.root && stval < S.USER_TOP && S.PageOf(stval) != 0
      requires S.Frame(kf2) !in g.tloc && S.Frame(kf1) !in g.tloc && kf1 != kf2 && kf1 <= S.PFN_MASK
               && kf2 <= S.PFN_MASK
      requires exists i :: 0 <= i < |k.nodes| && !k.nodes[i].active
      modifies this
      ensures Valid()
      ensures var key := Key(pid, S.PageOf(stval));
              && key in g.home && g.home[key].InMem? && key in Memory()
              && Memory() == if key in old(g.home) then old(Memory()) else old(Memory())[key := Memory()[key]]
      ensures S.Translate(k.pt, k.root, pid, S.PageOf(stval)).Some?
    {
      hide Kept, PtesOk, Pair, Seen, S.Tables, S.Translate, S.LeafSlot, S.PageOf, Pfn, S.SetAttr;
      S.VpnRange(stval);
      var vpn := S.PageOf(stval);
      ghost var key := Key(pid, vpn);
      var p, found;
      ghost var c;
      p, found, c := SearchListNode(MEM, vpn, pid);
      if found {
        Touch(p, c);
      } else {
        p, found, c := SearchListNode(CARD, vpn, pid);
        if found {
          ghost var f, ev := SwapPageIn(p, c);
        } else {
          ghost var f, ev := AllocPageHelper(pid, vpn, kf2, kf1);
          Resident(k, g, key, f);
        }
      }
      SeenKeys(k, g);
      Reaches(k, g, key);
    }

    /** A process stores into a page the hardware reaches: that page changes, as it sees it, and no other. */
    method Store(pid: int, va: S.Word, f: int, page: Page)
      requires Valid() && va < S.USER_TOP && 0 <= f < FRAMES && S.Translate(k.pt, k.root, pid, va) == S.Some(Pfn(f))
               && |page| == PER_PAGE
      modifies this`k
      ensures Valid() && Memory() == old(Memory())[Key(pid, S.PageOf(va)) := page]
              && Key(pid, S.PageOf(va)) in old(Memory())
      ensures |old(k.frames)| == FRAMES && k == old(k).(frames := old(k.frames)[f := page]) && g == old(g)
    {
      hide Sound, Seen, Pair;
      Shows(k, g);
      StoreEffect(k, g, pid, va, f, page);
      k := k.(frames := k.frames[f := page]);
    }

    /** A user store at any user address, faulting first if the page is not present: to its process the
        memory is a plain map from pages to contents, whatever is evicted on the way.  The page ends up marked. */
    method UserStore(pid: int, va: S.Word, page: Page, kf2: S.Word, kf1: S.Word)
      requires Valid() && pid in k.root && va < S.USER_TOP && S.PageOf(va) != 0 && |page| == PER_PAGE
      requires S.Frame(kf2) !in g.tloc && S.Frame(kf1) !in g.tloc && kf1 != kf2 && kf1 <= S.PFN_MASK
               && kf2 <= S.PFN_MASK
      requires exists i :: 0 <= i < |k.nodes| && !k.nodes[i].active
      modifies this
      ensures Valid() && Memory() == old(Memory())[Key(pid, S.PageOf(va)) := page]
      ensures exists i ::
                0 <= i < |k.nodes| && KeyOf(k.nodes[i]) == Key(pid, S.PageOf(va)) && Marked(k.pt, k.nodes[i].pte)
    {
      hide Kept, PtesOk, Pair, Seen, S.Tables, S.Translate, S.LeafSlot, S.PageOf, Pfn;
      ghost var key := Key(pid, S.PageOf(va));
      S.SamePage(k.pt, k.root, pid, va);
      TranslationIs(k, g, pid, va);
      if S.Translate(k.pt, k.root, pid, va).None? {
        HandlePageFault(pid, va, kf2, kf1);
        S.SamePage(k.pt, k.root, pid, va);
        TranslationIs(k, g, pid, va);
      }
      ghost var seen := Memory();
      var p, found;
      ghost var c;
      p, found, c := SearchListNode(MEM, S.PageOf(va), pid);
      FrameOfNode(k, g, c);
      Store(pid, va, k.nodes[p].addr, page);
      Touch(p, c);
      assert old(Memory())[key := seen[key]][key := page] == old(Memory())[key := page];
      assert seen == old(Memory()) || seen == old(Memory())[key := seen[key]];
    }

    /** A new process: its root directory r is a copy of the kernel's, whose user half is empty. */
    method NewRoot(pid: int, r: S.Word, kernel: S.Word)
      requires Valid() && pid !in k.root && S.Frame(r) !in g.tloc && r <= S.PFN_MASK && r != kernel
      requires forall i :: S.Idx(i) ==> S.Slot(kernel, i) in k.pt
      requires forall i :: S.UserIdx(i) ==> S.Slot(kernel, i) in k.pt && k.pt[S.Slot(kernel, i)] == 0
      modifies this`k, this`g
      ensures Valid() && k.root == old(k.root)[pid := r] && g.home == old(g.home) && Memory() == old(Memory())
      ensures k == old(k).(pt := k.pt, root := k.root) && g == old(g).(tloc := old(g.tloc)[S.Frame(r) := S.Root(pid)])
      ensures S.FreshRoot(old(k.pt), k.pt, r)
    {
      hide Sound, Pair, View, S.FreshRoot;
      var pt' := S.SharePgtable(k.pt, r, kernel);
      RootEffect(k, g, pid, r, pt');
      k, g := k.(pt := pt', root := k.root[pid := r]), g.(tloc := g.tloc[S.Frame(r) := S.Root(pid)]);
    }

    /** `recycle_node_from_list`: drops every node of pid from one list. */
    method RecycleNodeFromList(pid: int, head: int)
      requires Kept(k, g) && Pair(next, prev, MEM, g.mq, CARD, g.sq) && g.fl == -1 && g.held == -1
               && (head == MEM || head == CARD)
      modifies this
      ensures Kept(k, g) && Pair(next, prev, MEM, g.mq, CARD, g.sq) && g.fl == -1 && g.held == -1
      ensures k == old(k).(nodes := k.nodes, bits := k.bits)
      ensures Thinned(old(k), old(g), k, g, pid)
      ensures forall key :: key in g.home && key.pid == pid ==>
                key in old(g.home) && g.home[key].InMem? != (head == MEM)
    {
      hide Kept, Pair, Without, ClearBit, KeyOf, Thinned;
      SearchSetup(k, g, next, prev);
      ThinnedStart(k, g, pid);
      var p := next[head];
      ghost var c := 0;
      ghost var k0, g0 := k, g;
      while p != head
        invariant Kept(k, g) && Pair(next, prev, MEM, g.mq, CARD, g.sq) && g.fl == -1 && g.held == -1
        invariant k == k0.(nodes := k.nodes, bits := k.bits) && Thinned(k0, g0, k, g, pid)
        invariant InRange(k, ListOf(g, head)) && 0 <= c <= |ListOf(g, head)| && p == After(head, ListOf(g, head), c - 1)
        invariant forall j :: 0 <= j < c ==> k.nodes[ListOf(g, head)[j]].pid != pid
        decreases |ListOf(g, head)| - c
      {
        RingStep(next, prev, g, head, c);
        var pnext := next[p];
        ghost var k2, g2 := k, g;
        if k.nodes[p].pid == pid {
          ghost var q := ListOf(g, head);
          DropListed(p, head, pid, c);
          AfterDrop(head, q, c);
          ThinnedTrans(k0, g0, k2, g2, k, g, pid);
          SearchSetup(k, g, next, prev);
        } else {
          c := c + 1;
        }
        p := pnext;
      }
      DroppedAll(k, g, head, pid);
      ThinnedKeys(k0, g0, k, g, pid);
    }

    /** The body of that loop for a node to drop, at c on its list. */
    method DropListed(p: int, head: int, ghost pid: int, ghost c: nat)
      requires Kept(k, g) && Pair(next, prev, MEM, g.mq, CARD, g.sq) && g.fl == -1 && g.held == -1
               && (head == MEM || head == CARD)
      requires c < |ListOf(g, head)| && ListOf(g, head)[c] == p && 0 <= p < |k.nodes| && k.nodes[p].pid == pid
      modifies this
      ensures Kept(k, g) && Pair(next, prev, MEM, g.mq, CARD, g.sq) && g.fl == -1 && g.held == -1
      ensures k == old(k).(nodes := k.nodes, bits := k.bits) && Thinned(old(k), old(g), k, g, pid)
      ensures |k.nodes| == old(|k.nodes|) && ListOf(g, head) == Without(old(ListOf(g, head)), c)
      ensures forall j :: 0 <= j < |k.nodes| ==> k.nodes[j].pid == old(k.nodes)[j].pid
    {
      hide Kept, Pair, Without, ClearBit, KeyOf, Thinned;
      SecondOf(next, prev, g.mq, g.sq);
      DropEffect(k, g, head == MEM, c);
      ghost var g0 := g;
      if head == MEM {
        k := k.(nodes := k.nodes[p := k.nodes[p].(active := false)], bits := ClearBit(k.bits, k.nodes[p].addr));
        next, prev := DeleteListNode(next, prev, p, MEM, g0.mq, c, CARD, g0.sq);
        g := DropMem(old(k), g0, c);
      } else {
        k := k.(nodes := k.nodes[p := k.nodes[p].(active := false)]);
        PairSwap(next, prev, MEM, g0.mq, CARD, g0.sq);
        next, prev := DeleteListNode(next, prev, p, CARD, g0.sq, c, MEM, g0.mq);
        g := DropCard(old(k), g0, c);
        PairSwap(next, prev, CARD, g.sq, MEM, g.mq);
      }
    }

    /** `release_process_page`, as the process's tables go: exactly its pages and frames are gone. */
    method ReleaseProcessPage(pid: int)
      requires Valid()
      modifies this
      ensures Valid() && k.root == old(k.root) - {pid} && k.frames == old(k.frames)
      ensures g.home == OthersOf(old(g.home), pid) && Memory() == Others(old(Memory()), pid)
      ensures g.tloc == S.TablesOfOthers(old(g.tloc), pid) && |k.nodes| == |old(k.nodes)|
      ensures forall j :: 0 <= j < |k.nodes| && k.nodes[j].active ==> old(k.nodes)[j].active
      ensures |k.bits| == |old(k.bits)| && FRAMES <= 8 * |k.bits|
      ensures forall f :: 0 <= f < FRAMES ==> (Bit(k.bits, f) <==> f in old(g.fr) && old(g.fr)[f].pid != pid)
    {
      hide Kept, Pair, PtesOk, Thinned, OthersOf, View, Others, Bit;
      ghost var k0, g0 := k, g;
      RecycleNodeFromList(pid, MEM);
      ghost var k1, g1 := k, g;
      RecycleNodeFromList(pid, CARD);
      ThinnedTwice(k0, g0, k1, g1, k, g, pid);
      ThinnedNodes(k0, g0, k, g, pid);
      ExitEffect(k0, g0, k, g, pid);
      k, g := k.(root := k.root - {pid}), g.(tloc := S.TablesOfOthers(g.tloc, pid));
    }

    /** `get_free_PageNode` */
    method GetFreePageNode() returns (i: int)
      ensures -1 <= i < |k.nodes|
      ensures i == -1 <==> forall j :: 0 <= j < |k.nodes| ==> k.nodes[j].active
      ensures i >= 0 ==> !k.nodes[i].active && forall j :: 0 <= j < i ==> k.nodes[j].active
    {
      i := 0;
      while i < |k.nodes|
        invariant 0 <= i <= |k.nodes| && forall j :: 0 <= j < i ==> k.nodes[j].active
      {
        if !k.nodes[i].active {
          return;
        }
        i := i + 1;
      }
      return -1;
    }
  }

  // ---------------------------------------------------------------- a page passed on

  /** With no page in use the next one gets frame 0, as it was left. */
  lemma FirstFrame(k: Kernel, g: Shadow, f: int, ev: S.Option<Key>)
    requires Sound(k, g) && g.home == map[] && Inherits(k, g, f, ev) && 0 <= f < FRAMES
    ensures f == 0 && ev.None?
  {
    assert 0 !in g.fr;
  }

  lemma NodeCount(k: Kernel, g: Shadow)
    requires Sound(k, g)
    ensures |k.nodes| == MAX_NODES
  {
  }

  lemma StillIdle(nodes: seq<Node>, nodes': seq<Node>)
    requires FirstTaken(nodes, nodes') && |nodes| > 1 && !nodes[0].active && !nodes[1].active
    ensures |nodes'| == |nodes| && !nodes'[1].active
  {
  }

  lemma ClearedTable(pt: S.Memory, pt': S.Memory, t: S.Word)
    requires S.IsCleared(pt, pt', t)
    ensures forall i :: S.Idx(i) ==> S.Slot(t, i) in pt' && pt'[S.Slot(t, i)] == 0
  {
  }

  /** Only the root directory changed. */
  lemma KernelStays(pt: S.Memory, pt': S.Memory, r: S.Word, kernel: S.Word)
    requires S.FreshRoot(pt, pt', r) && kernel != r
    requires forall i :: S.Idx(i) ==> S.Slot(kernel, i) in pt && pt[S.Slot(kernel, i)] == 0
    ensures forall i :: S.Idx(i) ==> S.Slot(kernel, i) in pt' && pt'[S.Slot(kernel, i)] == 0
  {
  }

  /** No page is in use and node 1 is free; the tables in use are among `used`. */
  ghost predicate Idle(k: Kernel, g: Shadow, used: set<S.Word>) {
    && g.home == map[] && |k.nodes| == MAX_NODES && !k.nodes[1].active
    && forall t: S.Frame :: t in g.tloc ==> t.n in used
  }

  /** Processes 1 and 2 are created. */
  method TwoProcesses(frames: seq<Page>, sd: map<int, Sector>, start: int) returns (p: Pager)
    requires PagesOk(frames)
    ensures fresh(p) && p.Valid() && Idle(p.k, p.g, {2, 3}) && !p.k.nodes[0].active && 1 in p.k.root && 2 in p.k.root
  {
    hide Sound, Pair, View, PagesOk, S.FreshRoot, S.IsCleared;
    var pt := S.ClearPgdir(map[], 1);
    ClearedTable(map[], pt, 1);
    p := new Pager(seq(MAX_NODES, _ => Node(false, S.Slot(0, 0), 0, 0, 0)), frames, sd, start, pt);
    NodeCount(p.k, p.g);
    p.NewRoot(1, 2, 1);
    KernelStays(pt, p.k.pt, 2, 1);
    p.NewRoot(2, 3, 1);
  }

  /** Process 1 writes a page, its only one, and exits. */
  method WriteAndExit(p: Pager, va: S.Word, secret: Page)
    requires p.Valid() && Idle(p.k, p.g, {2, 3}) && !p.k.nodes[0].active && 1 in p.k.root && 2 in p.k.root
    requires |secret| == PER_PAGE && 0 < va < S.USER_TOP && S.PageOf(va) == va
    modifies p
    ensures p.Valid() && Idle(p.k, p.g, {2, 3, 4, 5}) && p.k.root == old(p.k.root) - {1}
    ensures |p.k.frames| == FRAMES && p.k.frames[0] == secret
  {
    hide Sound, Pair, View, PagesOk, S.Translate, S.PageOf, Inherits, FirstTaken;
    assert !p.k.nodes[0].active;
    var f;
    ghost var ev;
    f, ev := p.AllocPageHelper(1, va, 4, 5);
    FirstFrame(old(p.k), old(p.g), f, ev);
    StillIdle(old(p.k.nodes), p.k.nodes);
    ghost var key := Key(1, va);
    assert p.g.home - {key} == map[];
    p.Store(1, va, f, secret);
    p.ReleaseProcessPage(1);
    assert p.g.home == map[];
  }

  /** Process 1 writes a page and exits; process 2 then touches a page of its own for the first time and reads what
      process 1 wrote. */
  method NextOwnerReads(frames: seq<Page>, sd: map<int, Sector>, start: int, va: S.Word, secret: Page)
    returns (p: Pager)
    requires PagesOk(frames) && |secret| == PER_PAGE && 0 < va < S.USER_TOP && S.PageOf(va) == va
    ensures fresh(p) && p.Valid() && 1 !in p.k.root && 2 in p.k.root
    ensures Key(2, va) in p.Memory() && p.Memory()[Key(2, va)] == secret
  {
    hide Sound, Pair, View, PagesOk, S.Translate, S.PageOf, Inherits, Evicted, FirstTaken;
    p := TwoProcesses(frames, sd, start);
    WriteAndExit(p, va, secret);
    assert !p.k.nodes[1].active;
    ghost var k0, g0 := p.k, p.g;
    var f;
    ghost var ev;
    f, ev := p.AllocPageHelper(2, va, 6, 7);
    FirstFrame(k0, g0, f, ev);
  }

  // ---------------------------------------------------------------- searching

  lemma SearchSetup(k: Kernel, g: Shadow, next: map<int, int>, prev: map<int, int>)
    requires Kept(k, g) && Pair(next, prev, MEM, g.mq, CARD, g.sq)
    ensures MEM in next && next[MEM] == After(MEM, g.mq, -1) && CARD in next && next[CARD] == After(CARD, g.sq, -1)
    ensures InRange(k, g.mq) && InRange(k, g.sq)
  {
    MembersAre(k.nodes, g.mq, g.sq, g.fl, g.home);
  }

  ghost predicate InRange(k: Kernel, q: seq<int>) {
    forall j :: 0 <= j < |q| ==> 0 <= q[j] < |k.nodes|
  }

  lemma RingStep(next: map<int, int>, prev: map<int, int>, g: Shadow, head: int, c: nat)
    requires Pair(next, prev, MEM, g.mq, CARD, g.sq) && (head == MEM || head == CARD)
    requires var q := if head == MEM then g.mq else g.sq; c < |q|
    ensures var q := if head == MEM then g.mq else g.sq; q[c] in next && next[q[c]] == After(head, q, c)
  {
    Neighbours(next, prev, head, if head == MEM then g.mq else g.sq, c);
  }

  lemma FoundIs(k: Kernel, g: Shadow, c: nat, mem: bool)
    requires Kept(k, g) && var q := if mem then g.mq else g.sq; c < |q|
    ensures var i := (if mem then g.mq else g.sq)[c];
            0 <= i < |k.nodes| && KeyOf(k.nodes[i]) in g.home && g.home[KeyOf(k.nodes[i])].InMem? == mem
  {
    NodeAt(k.nodes, g.mq, g.sq, g.fl, g.home, (if mem then g.mq else g.sq)[c]);
  }

  lemma NotFound(k: Kernel, g: Shadow, key: Key, mem: bool)
    requires Kept(k, g) && g.fl == -1
    requires var q := if mem then g.mq else g.sq;
             InRange(k, q) && forall j :: 0 <= j < |q| ==> KeyOf(k.nodes[q[j]]) != key
    ensures key in g.home ==> g.home[key].InMem? != mem
  {
  }

  // ---------------------------------------------------------------- new tables

  lemma HangEffect(k: Kernel, g: Shadow, p: S.Place, i: S.Word, kf: S.Word, e: S.Word, pt': S.Memory)
    requires Sound(k, g) && S.CanHang(k.pt, k.root, g.tloc, p, i, kf, e)
    requires S.Hung(k.pt, pt', S.TableAt(k.pt, k.root, p).value, i, kf, e)
    ensures Sound(k.(pt := pt'), g.(tloc := g.tloc[S.Frame(kf) := S.Child(p, i)]))
  {
    hide Lists, FramesOk, CardOk, PagesOk, S.CanHang, S.Hung, S.Tables, S.TableAt, S.LeafSlot, S.Translate, S.Child,
         S.PageOf, S.Names, Pfn;
    S.HangKeeps(k.pt, k.root, g.tloc, p, i, kf, e, pt');
    forall key | key in g.home ensures PteOk(pt', k.root, k.nodes, key, g.home[key]) {
      assert PteOk(k.pt, k.root, k.nodes, key, g.home[key]);
      S.HangTranslate(k.pt, k.root, g.tloc, p, i, kf, e, pt', key.pid, key.uva);
    }
    forall pid, va | va < S.USER_TOP && S.Translate(pt', k.root, pid, va).Some?
      ensures Key(pid, S.PageOf(va)) in g.home && g.home[Key(pid, S.PageOf(va))].InMem?
    {
      S.HangTranslate(k.pt, k.root, g.tloc, p, i, kf, e, pt', pid, va);
    }
  }

  // ---------------------------------------------------------------- pages coming in

  /** The leaf entry of a page that has been given frame f. */
  function FillPage(e: S.Word, f: int): S.Word {
    S.SetAttr(S.SetPfn(e, Pfn(f)), S.LEAF_BITS)
  }

  lemma FillUsable(e: S.Word, f: int)
    ensures S.Usable(FillPage(e, f))
  {
    hide Pfn, S.Usable, S.SetAttr, S.SetPfn;
    S.LeafUsable(S.SetPfn(e, Pfn(f)));
  }

  /** The leaf entry of a page is its node's. */
  lemma LeafOf(k: Kernel, g: Shadow, key: Key)
    requires Sound(k, g) && key in g.home
    ensures 0 <= g.home[key].node < |k.nodes|
    ensures S.LeafSlot(k.pt, k.root, key.pid, key.uva) == S.Some(k.nodes[g.home[key].node].pte)
  {
    hide Kept, S.Tables, S.LeafSlot, S.Translate, PresentOk;
    assert PteOk(k.pt, k.root, k.nodes, key, g.home[key]);
  }

  lemma FillNames(e: S.Word, f: int)
    ensures S.Names(FillPage(e, f)) == S.Some(Pfn(f))
  {
    hide Pfn, S.Names, S.SetAttr, S.SetPfn;
    PfnFits(f);
    S.LeafNames(e, Pfn(f));
  }

  lemma SecondOf(next: map<int, int>, prev: map<int, int>, mq: seq<int>, sq: seq<int>)
    requires Pair(next, prev, MEM, mq, CARD, sq)
    ensures Distinct(sq) && Distinct(mq)
  {
  }

  /** A node leaves the card list; its page is still on the card. */
  lemma PluckEffect(k: Kernel, g: Shadow, c: nat)
    requires Sound(k, g) && c < |g.sq| && g.fl == -1 && Distinct(g.sq)
    ensures var i := g.sq[c];
            && 0 <= i < |k.nodes| && i !in g.mq && KeyOf(k.nodes[i]) in g.home
               && g.home[KeyOf(k.nodes[i])] == OnCard(i, k.nodes[i].addr)
            && Sound(k, g.(sq := Without(g.sq, c), fl := i))
               && Seen(k, g.(sq := Without(g.sq, c), fl := i)) == Seen(k, g)
  {
    hide PtesOk, FramesOk, CardOk, PagesOk, View, Without, Distinct;
    DistinctWithout(g.sq, c);
    assert g.sq[c] in g.sq;
  }

  ghost predicate CanAdmit(k: Kernel, g: Shadow) {
    && 0 <= g.fl < |k.nodes| && g.fl !in g.mq && g.fl !in g.sq && k.nodes[g.fl].pte in k.pt
       && 0 <= g.held < FRAMES == |k.frames|
    && KeyOf(k.nodes[g.fl]) in g.home && g.home[KeyOf(k.nodes[g.fl])] == OnCard(g.fl, k.nodes[g.fl].addr)
  }

  function AdmitKernel(k: Kernel, i: int, f: int): Kernel
    requires 0 <= i < |k.nodes| && k.nodes[i].pte in k.pt && 0 <= f < |k.frames|
  {
    var n := k.nodes[i];
    k.(frames := k.frames[f := CardPage(k.sd, n.addr, PER_PAGE)], nodes := k.nodes[i := n.(addr := f)],
       pt := k.pt[n.pte := FillPage(k.pt[n.pte], f)])
  }

  ghost function AdmitShadow(k: Kernel, g: Shadow): Shadow
    requires CanAdmit(k, g)
  {
    var key := KeyOf(k.nodes[g.fl]);
    g.(mq := g.mq + [g.fl], fl := -1, held := -1, home := g.home[key := InMem(g.fl, g.held)], fr := g.fr[g.held := key])
  }

  lemma AdmitEffect(k: Kernel, g: Shadow)
    requires Sound(k, g) && g.fl >= 0 && g.held >= 0
    ensures CanAdmit(k, g) && Sound(AdmitKernel(k, g.fl, g.held), AdmitShadow(k, g))
    ensures Seen(AdmitKernel(k, g.fl, g.held), AdmitShadow(k, g)) == Seen(k, g)
  {
    hide Lists, PtesOk, FramesOk, CardOk, PagesOk, View, CardPage, KeyOf, FillPage;
    var i, f := g.fl, g.held;
    NodeAt(k.nodes, g.mq, g.sq, g.fl, g.home, i);
    var key := KeyOf(k.nodes[i]);
    HeldIs(k.bits, g.fr, f, g.home);
    PteAt(k.pt, k.root, g.tloc, k.nodes, g.home, key);
    CardPageAt(k.sd, k.nodes[i].addr, PER_PAGE);
    var page := CardPage(k.sd, k.nodes[i].addr, PER_PAGE);
    PagesFill(k.frames, f, page);
    ListsIn(k.nodes, g.mq, g.sq, g.fl, g.home, f);
    FramesIn(k.bits, g.fr, f, g.home, key, i);
    CardIn(k.sd, k.sdEnd, g.home, key, i, f);
    ViewIn(k.bits, k.frames, k.sd, g.fr, f, g.home, key, i, page);
    ViewHas(k.frames, k.sd, g.home, key);
    PteIn(k.pt, k.root, g.tloc, k.nodes, g.home, key, f, k.nodes[i := k.nodes[i].(addr := f)]);
  }

  function CreateKernel(k: Kernel, i: int, key: Key, s: S.Slot, f: int): Kernel
    requires 0 <= i < |k.nodes| && s in k.pt
  {
    k.(nodes := k.nodes[i := Node(true, s, key.pid, f, key.uva)], pt := k.pt[s := FillPage(k.pt[s], f)])
  }

  function CreateShadow(g: Shadow, i: int, key: Key): Shadow {
    g.(mq := g.mq + [i], held := -1, home := g.home[key := InMem(i, g.held)], fr := g.fr[g.held := key])
  }

  /** A new page takes the held frame, as it is. */
  lemma CreateEffect(k: Kernel, g: Shadow, i: int, key: Key, s: S.Slot)
    requires Sound(k, g) && g.fl == -1 && g.held >= 0 && key !in g.home
    requires 0 <= i < |k.nodes| && !k.nodes[i].active
    requires key.uva < S.USER_TOP && S.PageOf(key.uva) == key.uva
             && S.LeafSlot(k.pt, k.root, key.pid, key.uva) == S.Some(s)
    ensures s in k.pt && i !in g.mq && i !in g.sq && g.held < FRAMES == |k.frames|
    ensures Sound(CreateKernel(k, i, key, s, g.held), CreateShadow(g, i, key))
    ensures Seen(CreateKernel(k, i, key, s, g.held), CreateShadow(g, i, key)) == Seen(k, g)[key := k.frames[g.held]]
  {
    hide Lists, PtesOk, FramesOk, CardOk, PagesOk, View, FillPage, S.LeafSlot, S.PageOf, S.Tables, S.Translate;
    var f := g.held;
    HeldIs(k.bits, g.fr, f, g.home);
    WholePage(k.frames, f);
    Tabled(k.pt, k.root, g.tloc, k.nodes, g.home);
    S.LeafTable(k.pt, k.root, g.tloc, key.pid, key.uva);
    MembersAre(k.nodes, g.mq, g.sq, g.fl, g.home);
    ListsNew(k.nodes, g.mq, g.sq, g.home, i, Node(true, s, key.pid, f, key.uva));
    FramesIn(k.bits, g.fr, f, g.home, key, i);
    CardIn(k.sd, k.sdEnd, g.home, key, i, f);
    ViewIn(k.bits, k.frames, k.sd, g.fr, f, g.home, key, i, k.frames[f]);
    assert k.frames[f := k.frames[f]] == k.frames;
    PteNew(k.pt, k.root, g.tloc, k.nodes, g.home, g.mq, g.sq, key, s, i, f);
  }

  lemma ListsNew(nodes: seq<Node>, mq: seq<int>, sq: seq<int>, home: map<Key, Home>, i: int, n: Node)
    requires Lists(nodes, mq, sq, -1, home) && 0 <= i < MAX_NODES && !nodes[i].active && n.active && KeyOf(n) !in home
    ensures i !in mq && i !in sq
    ensures Lists(nodes[i := n], mq + [i], sq, -1, home[KeyOf(n) := InMem(i, n.addr)])
  {
  }

  lemma PteNew(pt: S.Memory, root: S.Roots, tloc: map<S.Frame, S.Place>, nodes: seq<Node>, home: map<Key, Home>,
               mq: seq<int>, sq: seq<int>,
               key: Key, s: S.Slot, i: int, f: int)
    requires PtesOk(pt, root, tloc, nodes, home) && Lists(nodes, mq, sq, -1, home) && s in pt && 0 <= i < MAX_NODES
             && !nodes[i].active
    requires key.uva < S.USER_TOP && S.PageOf(key.uva) == key.uva && S.LeafSlot(pt, root, key.pid, key.uva) == S.Some(s)
    ensures PtesOk(pt[s := FillPage(pt[s], f)], root, tloc, nodes[i := Node(true, s, key.pid, f, key.uva)],
                   home[key := InMem(i, f)])
  {
    hide S.Tables, S.LeafSlot, S.Translate, S.PageOf, S.Names, S.GetAttr, S.GetPfn, FillPage, Pfn, PresentOk;
    FillNames(pt[s], f);
    PteWrite(pt, root, tloc, nodes, home, key, InMem(i, f), s, FillPage(pt[s], f),
             nodes[i := Node(true, s, key.pid, f, key.uva)]);
  }

  /** The hardware reaches a mapped page's frame. */
  lemma Reaches(k: Kernel, g: Shadow, key: Key)
    requires Sound(k, g) && key in g.home && g.home[key].InMem?
    ensures S.Translate(k.pt, k.root, key.pid, key.uva) == S.Some(Pfn(g.home[key].frame))
  {
    hide Kept, S.Tables, S.LeafSlot, S.Translate, S.PageOf, Pfn, PresentOk;
    assert PteOk(k.pt, k.root, k.nodes, key, g.home[key]);
  }

  lemma MinusNew(home: map<Key, Home>, key: Key, h: Home)
    requires key !in home
    ensures home[key := h] - {key} == home
  {
  }

  lemma RootIs(k: Kernel, pid: int)
    requires pid in k.root
    ensures S.TableAt(k.pt, k.root, S.Root(pid)) == S.Some(k.root[pid])
  {
  }

  // ---------------------------------------------------------------- access

  lemma TouchEffect(k: Kernel, g: Shadow, key: Key)
    requires Sound(k, g) && key in g.home
    ensures 0 <= g.home[key].node < |k.nodes| && k.nodes[g.home[key].node].pte in k.pt
    ensures var s := k.nodes[g.home[key].node].pte;
            var k' := k.(pt := k.pt[s := S.SetAttr(k.pt[s], S.ACCESSED_DIRTY)]);
            Sound(k', g) && Seen(k', g) == Seen(k, g)
  {
    hide Lists, PtesOk, FramesOk, CardOk, PagesOk, View, S.LeafSlot, S.PageOf, S.Names, S.SetAttr, Pfn;
    MembersAre(k.nodes, g.mq, g.sq, g.fl, g.home);
    PteAt(k.pt, k.root, g.tloc, k.nodes, g.home, key);
    var s := k.nodes[g.home[key].node].pte;
    S.MarksKeepNames(k.pt[s]);
    Remark(k.pt, k.root, g.tloc, k.nodes, g.home, key, S.SetAttr(k.pt[s], S.ACCESSED_DIRTY));
  }

  lemma ListedIs(k: Kernel, g: Shadow, c: nat)
    requires Kept(k, g) && c < |g.mq|
    ensures var i := g.mq[c]; 0 <= i < |k.nodes| && KeyOf(k.nodes[i]) in g.home && g.home[KeyOf(k.nodes[i])].node == i
  {
    hide Lists;
    NodeAt(k.nodes, g.mq, g.sq, g.fl, g.home, g.mq[c]);
  }

  lemma SeenKeys(k: Kernel, g: Shadow)
    ensures forall key :: key in Seen(k, g) <==> key in g.home
  {
  }

  /** A page in memory is what its frame holds. */
  lemma Shows(k: Kernel, g: Shadow)
    requires Sound(k, g)
    ensures |k.frames| == FRAMES
    ensures forall key :: key in g.home && g.home[key].InMem? ==>
              && 0 <= g.home[key].frame < FRAMES && key in Seen(k, g) && Seen(k, g)[key] == k.frames[g.home[key].frame]
  {
    hide Lists, PtesOk, CardOk, Bit;
  }

  lemma Resident(k: Kernel, g: Shadow, key: Key, f: int)
    requires Sound(k, g) && key in g.home && S.Translate(k.pt, k.root, key.pid, key.uva) == S.Some(Pfn(f))
    ensures g.home[key].InMem?
  {
    hide Kept, S.Tables, S.LeafSlot, S.Translate, S.PageOf, Pfn, PresentOk;
    assert PteOk(k.pt, k.root, k.nodes, key, g.home[key]);
  }

  /** Whatever the hardware reaches is the page the process owns there: what it reads in the frame is
      what the page holds. */
  lemma TranslateSees(k: Kernel, g: Shadow, pid: int, va: S.Word, f: int)
    requires Sound(k, g) && va < S.USER_TOP && 0 <= f < FRAMES && S.Translate(k.pt, k.root, pid, va) == S.Some(Pfn(f))
    ensures var key := Key(pid, S.PageOf(va));
            key in g.home && g.home[key].InMem? && g.home[key].frame == f && key in Seen(k, g) && f < |k.frames|
              && Seen(k, g)[key] == k.frames[f]
  {
    hide Lists, CardOk, S.Tables, S.LeafSlot, S.Translate, S.PageOf, Pfn, FramesOk;
    var key := Key(pid, S.PageOf(va));
    S.SamePage(k.pt, k.root, pid, va);
    assert PteOk(k.pt, k.root, k.nodes, key, g.home[key]);
    FrameAt(k.bits, g.fr, g.held, g.home, key);
    PfnInjective(f, g.home[key].frame);
  }

  /** What the hardware's walk yields, for every process and user address. */
  lemma TranslationIs(k: Kernel, g: Shadow, pid: int, va: S.Word)
    requires Sound(k, g) && va < S.USER_TOP
    ensures var key := Key(pid, S.PageOf(va));
            S.Translate(k.pt, k.root, pid, va)
            == if key in g.home && g.home[key].InMem? then S.Some(Pfn(g.home[key].frame)) else S.None
  {
    hide Kept, S.Tables, S.LeafSlot, S.Translate, S.PageOf, Pfn;
    var key := Key(pid, S.PageOf(va));
    S.SamePage(k.pt, k.root, pid, va);
    if key in g.home {
      assert PteOk(k.pt, k.root, k.nodes, key, g.home[key]);
    }
  }

  /** Between two states whose pages differ by one arrival and at most one eviction, every other address
      translates to the same frame, and the evicted page to none. */
  lemma OthersTranslate(k: Kernel, g: Shadow, k': Kernel, g': Shadow, key: Key, ev: S.Option<Key>, s: int, pid: int,
                        va: S.Word)
    requires Sound(k, g) && Sound(k', g') && va < S.USER_TOP
    requires key !in g.home && key in g'.home && Evicted(g.home, g'.home - {key}, ev, s)
             && Key(pid, S.PageOf(va)) != key
    ensures S.Translate(k'.pt, k'.root, pid, va)
         == if ev == S.Some(Key(pid, S.PageOf(va))) then S.None else S.Translate(k.pt, k.root, pid, va)
  {
    hide Sound, S.Translate, S.PageOf, Pfn;
    TranslationIs(k, g, pid, va);
    TranslationIs(k', g', pid, va);
    var other := Key(pid, S.PageOf(va));
    assert other in g'.home <==> other in g'.home - {key};
  }

  lemma FrameOfNode(k: Kernel, g: Shadow, c: nat)
    requires Kept(k, g) && c < |g.mq|
    ensures var i := g.mq[c];
            && 0 <= i < |k.nodes| && 0 <= k.nodes[i].addr < FRAMES
            && KeyOf(k.nodes[i]) in g.home && g.home[KeyOf(k.nodes[i])] == InMem(i, k.nodes[i].addr)
  {
    hide Lists, FramesOk;
    NodeAt(k.nodes, g.mq, g.sq, g.fl, g.home, g.mq[c]);
    FrameAt(k.bits, g.fr, g.held, g.home, KeyOf(k.nodes[g.mq[c]]));
  }

  lemma StoreEffect(k: Kernel, g: Shadow, pid: int, va: S.Word, f: int, page: Page)
    requires Sound(k, g) && va < S.USER_TOP && 0 <= f < FRAMES && S.Translate(k.pt, k.root, pid, va) == S.Some(Pfn(f))
             && |page| == PER_PAGE
    ensures f < |k.frames| && Key(pid, S.PageOf(va)) in Seen(k, g)
    ensures var k' := k.(frames := k.frames[f := page]);
            Sound(k', g) && Seen(k', g) == Seen(k, g)[Key(pid, S.PageOf(va)) := page]
  {
    hide Lists, CardOk, PtesOk, S.Tables, S.LeafSlot, S.Translate, S.PageOf, Pfn;
    TranslateSees(k, g, pid, va, f);
  }

  lemma RootEffect(k: Kernel, g: Shadow, pid: int, r: S.Word, pt': S.Memory)
    requires Sound(k, g) && pid !in k.root && S.Frame(r) !in g.tloc && r <= S.PFN_MASK && S.FreshRoot(k.pt, pt', r)
    ensures Sound(k.(pt := pt', root := k.root[pid := r]), g.(tloc := g.tloc[S.Frame(r) := S.Root(pid)]))
  {
    hide Lists, FramesOk, CardOk, PagesOk, S.FreshRoot, S.Tables, S.TableAt, S.LeafSlot, S.Translate, S.PageOf,
         S.Names, Pfn;
    S.RootKeeps(k.pt, k.root, g.tloc, pid, r, pt');
    forall key | key in g.home ensures PteOk(pt', k.root[pid := r], k.nodes, key, g.home[key]) {
      assert PteOk(k.pt, k.root, k.nodes, key, g.home[key]);
      S.RootTranslate(k.pt, k.root, g.tloc, pid, r, pt', key.pid, key.uva);
    }
    forall pid', va | va < S.USER_TOP && S.Translate(pt', k.root[pid := r], pid', va).Some?
      ensures Key(pid', S.PageOf(va)) in g.home && g.home[Key(pid', S.PageOf(va))].InMem?
    {
      S.RootTranslate(k.pt, k.root, g.tloc, pid, r, pt', pid', va);
    }
  }

  // ---------------------------------------------------------------- exit

  function ListOf(g: Shadow, head: int): seq<int> {
    if head == MEM then g.mq else g.sq
  }

  function OthersOf(home: map<Key, Home>, pid: int): map<Key, Home> {
    map key | key in home && key.pid != pid :: home[key]
  }

  function Others(pages: map<Key, Page>, pid: int): map<Key, Page> {
    map key | key in pages && key.pid != pid :: pages[key]
  }

  /** Only pages of pid have gone, and no page has moved. */
  ghost predicate Thinned(k0: Kernel, g0: Shadow, k: Kernel, g: Shadow, pid: int) {
    && |k.nodes| == |k0.nodes| && g.tloc == g0.tloc && |k.bits| == |k0.bits|
    && (forall key :: key in g.home ==> key in g0.home && g.home[key] == g0.home[key])
    && (forall key :: key in g0.home && key.pid != pid ==> key in g.home)
    && (forall key :: key in g.home && 0 <= g.home[key].node < |k.nodes| ==>
        k.nodes[g.home[key].node] == k0.nodes[g.home[key].node])
    && (forall f :: f in g.fr ==> f in g0.fr && g.fr[f] == g0.fr[f])
    && (forall j :: 0 <= j < |k.nodes| && k.nodes[j].active ==> k0.nodes[j].active)
  }

  lemma ThinnedNodes(k0: Kernel, g0: Shadow, k: Kernel, g: Shadow, pid: int)
    requires Thinned(k0, g0, k, g, pid)
    ensures |k.nodes| == |k0.nodes| && g.tloc == g0.tloc
    ensures forall j :: 0 <= j < |k.nodes| && k.nodes[j].active ==> k0.nodes[j].active
  {
  }

  lemma ThinnedStart(k: Kernel, g: Shadow, pid: int)
    ensures Thinned(k, g, k, g, pid)
  {
  }

  lemma ThinnedTrans(k0: Kernel, g0: Shadow, k1: Kernel, g1: Shadow, k: Kernel, g: Shadow, pid: int)
    requires Thinned(k0, g0, k1, g1, pid) && Thinned(k1, g1, k, g, pid)
    ensures Thinned(k0, g0, k, g, pid)
  {
  }

  lemma ThinnedKeys(k0: Kernel, g0: Shadow, k: Kernel, g: Shadow, pid: int)
    requires Thinned(k0, g0, k, g, pid)
    ensures forall key :: key in g.home ==> key in g0.home && g.home[key] == g0.home[key]
  {
  }

  lemma ThinnedTwice(k0: Kernel, g0: Shadow, k1: Kernel, g1: Shadow, k: Kernel, g: Shadow, pid: int)
    requires Thinned(k0, g0, k1, g1, pid) && Thinned(k1, g1, k, g, pid)
    requires forall key :: key in g1.home && key.pid == pid ==> g1.home[key].OnCard?
    requires forall key :: key in g.home && key.pid == pid ==> g.home[key].InMem?
    ensures Thinned(k0, g0, k, g, pid) && forall key :: key in g.home ==> key.pid != pid
  {
  }

  lemma AfterDrop(h: int, q: seq<int>, c: nat)
    requires c < |q|
    ensures |Without(q, c)| == |q| - 1 && After(h, Without(q, c), c - 1) == After(h, q, c)
    ensures forall j :: 0 <= j < c ==> Without(q, c)[j] == q[j]
  {
  }

  ghost function DropMem(k: Kernel, g: Shadow, c: nat): Shadow
    requires c < |g.mq| && 0 <= g.mq[c] < |k.nodes|
  {
    var n := k.nodes[g.mq[c]];
    g.(mq := Without(g.mq, c), home := g.home - {KeyOf(n)}, fr := g.fr - {n.addr})
  }

  ghost function DropCard(k: Kernel, g: Shadow, c: nat): Shadow
    requires c < |g.sq| && 0 <= g.sq[c] < |k.nodes|
  {
    g.(sq := Without(g.sq, c), home := g.home - {KeyOf(k.nodes[g.sq[c]])})
  }

  lemma DropEffect(k: Kernel, g: Shadow, mem: bool, c: nat)
    requires Kept(k, g) && g.fl == -1 && g.held == -1 && Distinct(g.mq) && Distinct(g.sq)
    requires var q := if mem then g.mq else g.sq; c < |q|
    ensures var i := (if mem then g.mq else g.sq)[c];
            && 0 <= i < |k.nodes|
            && var n := k.nodes[i];
               var nodes' := k.nodes[i := n.(active := false)];
               if mem then
                 && 0 <= n.addr < 8 * |k.bits|
                 && var k' := k.(nodes := nodes', bits := ClearBit(k.bits, n.addr));
                    Kept(k', DropMem(k, g, c)) && Thinned(k, g, k', DropMem(k, g, c), n.pid)
               else
                 var k' := k.(nodes := nodes');
                 Kept(k', DropCard(k, g, c)) && Thinned(k, g, k', DropCard(k, g, c), n.pid)
  {
    hide Lists, FramesOk, CardOk, PagesOk, Without, Distinct, ClearBit;
    var i := (if mem then g.mq else g.sq)[c];
    NodeAt(k.nodes, g.mq, g.sq, g.fl, g.home, i);
    var n := k.nodes[i];
    ListsDrop(k.nodes, g.mq, g.sq, g.home, mem, c);
    CardDrop(k.sd, k.sdEnd, g.home, KeyOf(n));
    HomesApart(k.nodes, g.mq, g.sq, g.home, i);
    if mem {
      FramesDrop(k.bits, g.fr, g.home, KeyOf(n));
    } else {
      FramesDropCard(k.bits, g.fr, g.home, KeyOf(n));
    }
  }

  /** No other page has node i. */
  lemma HomesApart(nodes: seq<Node>, mq: seq<int>, sq: seq<int>, home: map<Key, Home>, i: int)
    requires Lists(nodes, mq, sq, -1, home) && 0 <= i < |nodes|
    ensures forall key :: key in home && key != KeyOf(nodes[i]) ==> home[key].node != i
  {
  }

  lemma ListsDrop(nodes: seq<Node>, mq: seq<int>, sq: seq<int>, home: map<Key, Home>, mem: bool, c: nat)
    requires Lists(nodes, mq, sq, -1, home) && Distinct(mq) && Distinct(sq) && var q := if mem then mq else sq; c < |q|
    ensures var i := (if mem then mq else sq)[c];
            && 0 <= i < |nodes|
            && var nodes', home' := nodes[i := nodes[i].(active := false)], home - {KeyOf(nodes[i])};
               if mem then Lists(nodes', Without(mq, c), sq, -1, home')
                 else Lists(nodes', mq, Without(sq, c), -1, home')
  {
    hide Without, Distinct;
    var q := if mem then mq else sq;
    DistinctWithout(q, c);
    assert q[c] in q;
  }

  lemma FramesDrop(bits: Bits, fr: map<int, Key>, home: map<Key, Home>, key: Key)
    requires FramesOk(bits, fr, -1, home) && key in home && home[key].InMem?
    ensures 0 <= home[key].frame < 8 * |bits|
    ensures FramesOk(ClearBit(bits, home[key].frame), fr - {home[key].frame}, -1, home - {key})
  {
    hide Bit, ClearBit;
    var f := home[key].frame;
    forall h | 0 <= h < FRAMES ensures Bit(ClearBit(bits, f), h) <==> h in fr - {f} || h == -1 {
      BitAfterClear(bits, f, h);
    }
  }

  lemma FramesDropCard(bits: Bits, fr: map<int, Key>, home: map<Key, Home>, key: Key)
    requires FramesOk(bits, fr, -1, home) && key in home && home[key].OnCard?
    ensures FramesOk(bits, fr, -1, home - {key})
  {
  }

  lemma CardDrop(sd: map<int, Sector>, sdEnd: int, home: map<Key, Home>, key: Key)
    requires CardOk(sd, sdEnd, home)
    ensures CardOk(sd, sdEnd, home - {key})
  {
  }

  lemma DroppedAll(k: Kernel, g: Shadow, head: int, pid: int)
    requires Kept(k, g) && g.fl == -1 && (head == MEM || head == CARD) && InRange(k, ListOf(g, head))
    requires forall j :: 0 <= j < |ListOf(g, head)| ==> k.nodes[ListOf(g, head)[j]].pid != pid
    ensures forall key :: key in g.home && key.pid == pid ==> g.home[key].InMem? != (head == MEM)
  {
    hide FramesOk, CardOk, PagesOk;
    forall key | key in g.home && key.pid == pid ensures g.home[key].InMem? != (head == MEM) {
      assert KeyOf(k.nodes[g.home[key].node]) == key;
    }
  }

  lemma ExitEffect(k0: Kernel, g0: Shadow, k: Kernel, g: Shadow, pid: int)
    requires Sound(k0, g0) && g0.fl == -1 && g0.held == -1
    requires Kept(k, g) && g.held == -1 && k == k0.(nodes := k.nodes, bits := k.bits) && Thinned(k0, g0, k, g, pid)
    requires forall key :: key in g.home ==> key.pid != pid
    ensures Sound(k.(root := k.root - {pid}), g.(tloc := S.TablesOfOthers(g.tloc, pid)))
    ensures g.home == OthersOf(g0.home, pid) && Seen(k, g) == Others(Seen(k0, g0), pid)
    ensures FRAMES <= 8 * |k.bits| && forall f :: 0 <= f < FRAMES ==>
            (Bit(k.bits, f) <==> f in g0.fr && g0.fr[f].pid != pid)
  {
    hide Lists, CardOk, PagesOk, S.Tables, S.LeafSlot, S.Translate, S.PageOf, Pfn, Bit, S.TablesOfOthers, FramesOk,
         Contents;
    assert g.home == OthersOf(g0.home, pid);
    ExitPtes(k0, g0, k, g, pid);
    ExitFrames(k0, g0, k, g, pid);
    assert Seen(k, g) == Others(Seen(k0, g0), pid);
  }

  lemma ExitPtes(k0: Kernel, g0: Shadow, k: Kernel, g: Shadow, pid: int)
    requires Sound(k0, g0)
    requires Kept(k, g) && k == k0.(nodes := k.nodes, bits := k.bits) && Thinned(k0, g0, k, g, pid)
    requires forall key :: key in g.home ==> key.pid != pid
    ensures PtesOk(k.pt, k.root - {pid}, S.TablesOfOthers(g.tloc, pid), k.nodes, g.home)
  {
    hide Lists, CardOk, PagesOk, FramesOk, S.Tables, S.LeafSlot, S.Translate, S.PageOf, Pfn, S.TablesOfOthers;
    S.DropKeeps(k.pt, k.root, g.tloc, pid);
    forall key | key in g.home ensures PteOk(k.pt, k.root - {pid}, k.nodes, key, g.home[key]) {
      assert PteOk(k0.pt, k0.root, k0.nodes, key, g0.home[key]);
      S.DropWalk(k.pt, k.root, pid, key.pid, key.uva);
    }
    forall pid', va | va < S.USER_TOP && S.Translate(k.pt, k.root - {pid}, pid', va).Some?
      ensures Key(pid', S.PageOf(va)) in g.home && g.home[Key(pid', S.PageOf(va))].InMem?
    {
      S.DropWalk(k.pt, k.root, pid, pid', va);
    }
  }

  lemma ExitFrames(k0: Kernel, g0: Shadow, k: Kernel, g: Shadow, pid: int)
    requires Kept(k0, g0) && Kept(k, g) && g.held == -1 && Thinned(k0, g0, k, g, pid)
    requires forall key :: key in g.home ==> key.pid != pid
    ensures FRAMES <= 8 * |k.bits| && forall f :: 0 <= f < FRAMES ==>
            (Bit(k.bits, f) <==> f in g0.fr && g0.fr[f].pid != pid)
  {
    hide Lists, CardOk, PagesOk, Bit;
  }

  lemma ClearBits(bits: Bits)
    requires forall i :: 0 <= i < |bits| ==> bits[i] == 0
    ensures forall f :: 0 <= f < 8 * |bits| ==> !Bit(bits, f)
  {
    forall f | 0 <= f < 8 * |bits| ensures !Bit(bits, f) {
      ZeroTest(f % 8);
    }
  }

  lemma ZeroTest(i: int)
    requires 0 <= i < 8
    ensures !Test(0, i)
  {
  }

  lemma NoRoots(pt: S.Memory)
    ensures S.Tables(pt, map[], map[]) && forall pid, va :: S.Translate(pt, map[], pid, va) == S.None
  {
    hide S.GetPfn, S.GetAttr, S.Vpn2, S.Vpn1, S.Vpn0;
  }

  lemma HeldIs(bits: Bits, fr: map<int, Key>, held: int, home: map<Key, Home>)
    requires FramesOk(bits, fr, held, home) && held >= 0
    ensures held < FRAMES && held !in fr
  {
  }

  lemma PagesFill(frames: seq<Page>, f: int, page: Page)
    requires PagesOk(frames) && 0 <= f < FRAMES && |page| == PER_PAGE
    ensures |frames| == FRAMES && PagesOk(frames[f := page])
  {
  }

  /** Rewriting a page's contents with what it already shows changes nothing. */
  lemma ViewHas(frames: seq<Page>, sd: map<int, Sector>, home: map<Key, Home>, key: Key)
    requires key in home && home[key].OnCard?
    ensures View(frames, sd, home)[key := CardPage(sd, home[key].sector, PER_PAGE)] == View(frames, sd, home)
  {
    hide CardPage;
    assert View(frames, sd, home)[key] == CardPage(sd, home[key].sector, PER_PAGE);
  }

  lemma PteIn(pt: S.Memory, root: S.Roots, tloc: map<S.Frame, S.Place>, nodes: seq<Node>, home: map<Key, Home>,
              key: Key, f: int, nodes': seq<Node>)
    requires PtesOk(pt, root, tloc, nodes, home) && key in home && 0 <= home[key].node < |nodes|
    requires nodes' == nodes[home[key].node := nodes[home[key].node].(addr := f)]
    ensures var s := nodes[home[key].node].pte;
            s in pt && PtesOk(pt[s := FillPage(pt[s], f)], root, tloc, nodes', home[key := InMem(home[key].node, f)])
  {
    hide S.Tables, S.LeafSlot, S.Translate, S.PageOf, S.Names, S.GetAttr, S.GetPfn, FillPage, Pfn, PresentOk;
    PteAt(pt, root, tloc, nodes, home, key);
    var s := nodes[home[key].node].pte;
    FillNames(pt[s], f);
    PteWrite(pt, root, tloc, nodes, home, key, InMem(home[key].node, f), s, FillPage(pt[s], f), nodes');
  }

  lemma FrameAt(bits: Bits, fr: map<int, Key>, held: int, home: map<Key, Home>, k: Key)
    requires FramesOk(bits, fr, held, home) && k in home && home[k].InMem?
    ensures 0 <= home[k].frame < FRAMES && home[k].frame != held && Bit(bits, home[k].frame)
  {
  }

  lemma WholePage(frames: seq<Page>, f: int)
    requires PagesOk(frames) && 0 <= f < FRAMES
    ensures |frames| == FRAMES && |frames[f]| == PER_PAGE
  {
  }

  lemma PteOut(pt: S.Memory, root: S.Roots, tloc: map<S.Frame, S.Place>, nodes: seq<Node>, home: map<Key, Home>, k: Key,
               s: int)
    requires PtesOk(pt, root, tloc, nodes, home) && k in home
    ensures 0 <= home[k].node < MAX_NODES && nodes[home[k].node].pte in pt
    ensures var i := home[k].node;
            PtesOk(pt[nodes[i].pte := S.ClearAttr(pt[nodes[i].pte], S.PRESENT)], root, tloc,
                   nodes[i := nodes[i].(addr := s)], home[k := OnCard(i, s)])
  {
    hide S.Tables, S.LeafSlot, S.Translate, S.PageOf, S.Names, S.GetAttr, S.GetPfn, S.ClearAttr, Pfn, PresentOk;
    PteAt(pt, root, tloc, nodes, home, k);
    var i := home[k].node;
    S.MarksKeepNames(pt[nodes[i].pte]);
    PteWrite(pt, root, tloc, nodes, home, k, OnCard(i, s), nodes[i].pte, S.ClearAttr(pt[nodes[i].pte], S.PRESENT),
             nodes[i := nodes[i].(addr := s)]);
  }

  /** The first r nodes were marked and have been unmarked. */
  ghost predicate Swept(pt0: S.Memory, pt: S.Memory, nodes: seq<Node>, q: seq<int>, r: int)
    requires forall j :: 0 <= j < |q| ==> 0 <= q[j] < |nodes|
  {
    && 0 <= r <= |q|
    && (forall j :: 0 <= j < r ==> Marked(pt0, nodes[q[j]].pte) && !Marked(pt, nodes[q[j]].pte))
    && (forall j :: r <= j < |q| ==> (Marked(pt, nodes[q[j]].pte) <==> Marked(pt0, nodes[q[j]].pte)))
  }

  lemma SweepStart(pt: S.Memory, nodes: seq<Node>, q: seq<int>)
    requires forall j :: 0 <= j < |q| ==> 0 <= q[j] < |nodes|
    ensures Swept(pt, pt, nodes, q, 0)
  {
  }

  lemma SweepEnd(pt0: S.Memory, pt: S.Memory, nodes: seq<Node>, q: seq<int>, mq: seq<int>, r: int)
    requires (forall j :: 0 <= j < |q| ==> 0 <= q[j] < |nodes|) && q != []
    requires Swept(pt0, pt, nodes, q, r) && mq == Rotated(q, r) && 0 <= mq[0] < |nodes| && !Marked(pt, nodes[mq[0]].pte)
    ensures FirstUnmarked(pt0, nodes, q, r)
  {
    hide Marked, Rotated;
    RotatedHead(q, r);
  }

  lemma SweepStep(pt0: S.Memory, pt: S.Memory, root: S.Roots, tloc: map<S.Frame, S.Place>, nodes: seq<Node>,
                  q: seq<int>, mq: seq<int>,
                  sq: seq<int>, fl: int, home: map<Key, Home>, next: map<int, int>, prev: map<int, int>, r: int)
    requires (forall j :: 0 <= j < |q| ==> 0 <= q[j] < |nodes|) && q != []
    requires Swept(pt0, pt, nodes, q, r) && mq == Rotated(q, r) && 0 <= mq[0] < |nodes| && Marked(pt, nodes[mq[0]].pte)
    requires PtesOk(pt, root, tloc, nodes, home) && Lists(nodes, mq, sq, fl, home)
             && Pair(next, prev, MEM, mq, CARD, sq)
    ensures r < |q| && nodes[mq[0]].pte in pt
    ensures Lists(nodes, Rotated(q, r + 1), sq, fl, home)
    ensures var pt' := pt[nodes[mq[0]].pte := S.ClearAttr(pt[nodes[mq[0]].pte], S.ACCESSED_DIRTY)];
            PtesOk(pt', root, tloc, nodes, home) && Swept(pt0, pt', nodes, q, r + 1)
  {
    hide Lists, PtesOk, Pair, Marked, Rotated, S.ClearAttr;
    RotatedHead(q, r);
    RingDistinct(next, prev, q, mq, sq, r);
    ClockStep(pt, root, tloc, nodes, mq, sq, fl, home, mq[0]);
    RotatedSame(q, r);
    RotatedSame(q, r + 1);
    ListsSame(nodes, mq, sq, fl, home, Rotated(q, r + 1));
    assert forall j :: 0 <= j < |q| ==> q[j] in mq;
  }

  lemma RotatedEnds(q: seq<int>)
    ensures Rotated(q, 0) == q && Rotated(q, |q|) == q
  {
  }

  lemma RotatedHead(q: seq<int>, r: int)
    requires 0 <= r <= |q| && q != []
    ensures |Rotated(q, r)| == |q| && Rotated(q, r)[0] == q[if r < |q| then r else 0]
  {
  }

  lemma RingDistinct(next: map<int, int>, prev: map<int, int>, q: seq<int>, mq: seq<int>, sq: seq<int>, r: int)
    requires Pair(next, prev, MEM, mq, CARD, sq) && 0 <= r <= |q| && mq == Rotated(q, r)
    ensures Distinct(q)
  {
    assert forall i :: 0 <= i < |q| ==> q[i] == mq[if i < r then |q| - r + i else i - r];
  }

  lemma MembersAre(nodes: seq<Node>, mq: seq<int>, sq: seq<int>, fl: int, home: map<Key, Home>)
    requires Lists(nodes, mq, sq, fl, home)
    ensures |nodes| == MAX_NODES
    ensures forall j :: 0 <= j < |mq| ==> 0 <= mq[j] < MAX_NODES
    ensures forall j :: 0 <= j < |sq| ==> 0 <= sq[j] < MAX_NODES
  {
    assert forall j :: 0 <= j < |mq| ==> mq[j] in mq;
    assert forall j :: 0 <= j < |sq| ==> sq[j] in sq;
  }

  lemma LastIs(next: map<int, int>, prev: map<int, int>, h: int, q: seq<int>, h': int, q': seq<int>)
    requires Pair(next, prev, h, q, h', q')
    ensures h in prev && (prev[h] == h || prev[h] in q)
  {
  }

  lemma HeadIs(next: map<int, int>, prev: map<int, int>, mq: seq<int>, sq: seq<int>)
    requires Pair(next, prev, MEM, mq, CARD, sq)
    ensures MEM in next && Distinct(mq) && (mq != [] ==> next[MEM] == mq[0] && mq[0] in mq)
  {
  }
}