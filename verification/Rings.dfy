/** Circular doubly linked lists with a sentinel head, as the kernel builds them for
    scheduler queues, page-node lists and the sector cache.  A pointer field is an entry
    of a link map; a NULL pointer is a missing entry. */
module Rings {

  ghost predicate Distinct<N(!new)>(s: seq<N>) {
    forall i, j :: 0 <= i < j < |s| ==> s[i] != s[j]
  }

  /** The node after position i, and the one before it; position -1 is the head. */
  function After<N>(h: N, q: seq<N>, i: int): N
    requires -1 <= i < |q|
  {
    if i + 1 < |q| then q[i + 1] else h
  }

  function Before<N>(h: N, q: seq<N>, i: int): N
    requires 0 <= i <= |q|
  {
    if i == 0 then h else q[i - 1]
  }

  /** `next` and `prev` link the head `h` and the members `q`, in this order, into one cycle. */
  ghost predicate Ring<N(!new)>(next: map<N, N>, prev: map<N, N>, h: N, q: seq<N>) {
    && h !in q && Distinct(q)
    && h in next && next[h] == After(h, q, -1)
    && h in prev && prev[h] == Before(h, q, |q|)
    && (forall i {:trigger q[i] in next} {:trigger next[q[i]]} ::
          0 <= i < |q| ==> q[i] in next && next[q[i]] == After(h, q, i))
    && (forall i {:trigger q[i] in prev} {:trigger prev[q[i]]} ::
          0 <= i < |q| ==> q[i] in prev && prev[q[i]] == Before(h, q, i))
  }

  function Without<N>(q: seq<N>, k: nat): seq<N>
    requires k < |q|
  {
    q[..k] + q[k + 1..]
  }

  /** A ring looks only at its own nodes. */
  lemma Frame<N(!new)>(next: map<N, N>, prev: map<N, N>, next': map<N, N>, prev': map<N, N>, h: N, q: seq<N>)
    requires Ring(next, prev, h, q)
    requires forall x :: x == h || x in q ==> x in next' && x in prev' && next'[x] == next[x] && prev'[x] == prev[x]
    ensures Ring(next', prev', h, q)
  {
  }

  /** What a member's links say, and that its neighbours link back to it. */
  lemma Neighbours<N(!new)>(next: map<N, N>, prev: map<N, N>, h: N, q: seq<N>, k: nat)
    requires Ring(next, prev, h, q) && k < |q|
    ensures q[k] in next && next[q[k]] == After(h, q, k)
    ensures q[k] in prev && prev[q[k]] == Before(h, q, k)
    ensures next[q[k]] in prev && prev[next[q[k]]] == q[k]
    ensures prev[q[k]] in next && next[prev[q[k]]] == q[k]
  {
    assert k + 1 < |q| ==> q[k + 1] in prev;
    assert k > 0 ==> q[k - 1] in next;
  }

  function UnlinkNext<N>(next: map<N, N>, prev: map<N, N>, x: N): map<N, N>
    requires x in next && x in prev
  {
    next[prev[x] := next[x]] - {x}
  }

  function UnlinkPrev<N>(next: map<N, N>, prev: map<N, N>, x: N): map<N, N>
    requires x in next && x in prev
  {
    prev[next[x] := prev[x]] - {x}
  }

  /** Joining the neighbours of a member and clearing its own links leaves the ring without it. */
  lemma Unlink<N(!new)>(next: map<N, N>, prev: map<N, N>, h: N, q: seq<N>, k: nat)
    requires Ring(next, prev, h, q) && k < |q|
    ensures q[k] in next && q[k] in prev
    ensures Ring(UnlinkNext(next, prev, q[k]), UnlinkPrev(next, prev, q[k]), h, Without(q, k))
  {
    Neighbours(next, prev, h, q, k);
    var n', p' := UnlinkNext(next, prev, q[k]), UnlinkPrev(next, prev, q[k]);
    var r := Without(q, k);
    DistinctWithout(q, k);
    forall i | 0 <= i < |r|
      ensures r[i] in n' && n'[r[i]] == After(h, r, i) && r[i] in p' && p'[r[i]] == Before(h, r, i)
    {
      var j := if i < k then i else i + 1;
      assert r[i] == q[j] && q[j] != q[k];
      assert q[j] in next && q[j] in prev;
    }
  }

  lemma DistinctWithout<N(!new)>(s: seq<N>, k: nat)
    requires Distinct(s) && k < |s|
    ensures Distinct(Without(s, k)) && s[k] !in Without(s, k)
    ensures forall x :: x in s <==> x == s[k] || x in Without(s, k)
  {
    var r := Without(s, k);
    assert s == s[..k] + [s[k]] + s[k + 1..];
    forall i | 0 <= i < |r| ensures r[i] == s[if i < k then i else i + 1] {
    }
  }

  /** The four pointer writes that put x before the head. */
  lemma InsertTail<N(!new)>(next: map<N, N>, prev: map<N, N>, h: N, q: seq<N>, x: N)
    requires Ring(next, prev, h, q) && x != h && x !in q
    ensures h in prev
    ensures Ring(next[prev[h] := x][x := h], prev[x := prev[h]][h := x], h, q + [x])
  {
    var n', p' := next[prev[h] := x][x := h], prev[x := prev[h]][h := x];
    var r := q + [x];
    forall i | 0 <= i < |r|
      ensures r[i] in n' && n'[r[i]] == After(h, r, i) && r[i] in p' && p'[r[i]] == Before(h, r, i)
    {
      if i < |q| {
        assert r[i] == q[i] && q[i] in next && q[i] in prev;
      }
    }
  }

  /** The four pointer writes that put x after the head. */
  lemma InsertHead<N(!new)>(next: map<N, N>, prev: map<N, N>, h: N, q: seq<N>, x: N)
    requires Ring(next, prev, h, q) && x != h && x !in q
    ensures h in next
    ensures Ring(next[x := next[h]][h := x], prev[x := h][next[h] := x], h, [x] + q)
  {
    var n', p' := next[x := next[h]][h := x], prev[x := h][next[h] := x];
    var r := [x] + q;
    forall i | 0 <= i < |r|
      ensures r[i] in n' && n'[r[i]] == After(h, r, i) && r[i] in p' && p'[r[i]] == Before(h, r, i)
    {
      if i > 0 {
        assert r[i] == q[i - 1] && q[i - 1] in next && q[i - 1] in prev;
      }
    }
  }

  /** Two rings that share no node. */
  ghost predicate Apart<N(!new)>(h: N, q: seq<N>, h': N, q': seq<N>) {
    h != h' && h !in q' && h' !in q && forall x :: x in q ==> x !in q'
  }

  lemma UnlinkApart<N(!new)>(next: map<N, N>, prev: map<N, N>, h: N, q: seq<N>, k: nat, h': N, q': seq<N>)
    requires Ring(next, prev, h, q) && k < |q| && Ring(next, prev, h', q') && Apart(h, q, h', q')
    ensures q[k] in next && q[k] in prev
    ensures Ring(UnlinkNext(next, prev, q[k]), UnlinkPrev(next, prev, q[k]), h', q')
  {
    Neighbours(next, prev, h, q, k);
    assert q[k] in q && (k > 0 ==> q[k - 1] in q) && (k + 1 < |q| ==> q[k + 1] in q);
    RingNodes(next, prev, h', q');
    hide Ring;
    Frame(next, prev, UnlinkNext(next, prev, q[k]), UnlinkPrev(next, prev, q[k]), h', q');
  }

  lemma RingNodes<N(!new)>(next: map<N, N>, prev: map<N, N>, h: N, q: seq<N>)
    requires Ring(next, prev, h, q)
    ensures forall x :: x == h || x in q ==> x in next && x in prev
  {
  }

  lemma InsertTailApart<N(!new)>(next: map<N, N>, prev: map<N, N>, h: N, q: seq<N>, x: N, h': N, q': seq<N>)
    requires Ring(next, prev, h, q) && Ring(next, prev, h', q') && Apart(h, q, h', q') && x != h' && x !in q'
    ensures h in prev
    ensures Ring(next[prev[h] := x][x := h], prev[x := prev[h]][h := x], h', q')
  {
    assert q != [] ==> q[|q| - 1] in q;
    RingNodes(next, prev, h', q');
    Frame(next, prev, next[prev[h] := x][x := h], prev[x := prev[h]][h := x], h', q');
  }

  /** Moving the first member behind the last, as six pointer writes. */
  function RotateNext<N>(next: map<N, N>, prev: map<N, N>, h: N): map<N, N>
    requires h in next && h in prev && next[h] in next
  {
    next[h := next[next[h]]][next[h] := h][prev[h] := next[h]]
  }

  function RotatePrev<N>(next: map<N, N>, prev: map<N, N>, h: N): map<N, N>
    requires h in next && h in prev && next[h] in next
  {
    prev[next[next[h]] := h][h := next[h]][next[h] := prev[h]]
  }

  lemma Rotate<N(!new)>(next: map<N, N>, prev: map<N, N>, h: N, q: seq<N>)
    requires Ring(next, prev, h, q) && |q| >= 2
    ensures h in next && h in prev && next[h] in next
    ensures Ring(RotateNext(next, prev, h), RotatePrev(next, prev, h), h, q[1..] + [q[0]])
  {
    Neighbours(next, prev, h, q, 0);
    Neighbours(next, prev, h, q, |q| - 1);
    var n', p' := RotateNext(next, prev, h), RotatePrev(next, prev, h);
    var r := q[1..] + [q[0]];
    forall i | 0 <= i < |r|
      ensures r[i] in n' && n'[r[i]] == After(h, r, i) && r[i] in p' && p'[r[i]] == Before(h, r, i)
    {
      if i < |q| - 1 {
        assert r[i] == q[i + 1] && q[i + 1] in next && q[i + 1] in prev;
      }
    }
  }

  lemma RotateApart<N(!new)>(next: map<N, N>, prev: map<N, N>, h: N, q: seq<N>, h': N, q': seq<N>)
    requires Ring(next, prev, h, q) && |q| >= 2 && Ring(next, prev, h', q') && Apart(h, q, h', q')
    ensures h in next && h in prev && next[h] in next
    ensures Ring(RotateNext(next, prev, h), RotatePrev(next, prev, h), h', q')
  {
    Neighbours(next, prev, h, q, 0);
    assert q[0] in q && q[1] in q && q[|q| - 1] in q;
    RingNodes(next, prev, h', q');
    Frame(next, prev, RotateNext(next, prev, h), RotatePrev(next, prev, h), h', q');
  }

  // ---------------------------------------------------------------- two lists in one node pool

  ghost predicate Pair<N(!new)>(next: map<N, N>, prev: map<N, N>, h: N, q: seq<N>, h': N, q': seq<N>) {
    Ring(next, prev, h, q) && Ring(next, prev, h', q') && Apart(h, q, h', q')
  }

  lemma PairUnlink<N(!new)>(next: map<N, N>, prev: map<N, N>, h: N, q: seq<N>, k: nat, h': N, q': seq<N>)
    requires Pair(next, prev, h, q, h', q') && k < |q|
    ensures q[k] in next && q[k] in prev
    ensures Pair(UnlinkNext(next, prev, q[k]), UnlinkPrev(next, prev, q[k]), h, Without(q, k), h', q')
    ensures q[k] !in Without(q, k) && q[k] !in q' && forall x :: x in q <==> x == q[k] || x in Without(q, k)
  {
    hide Ring, UnlinkNext, UnlinkPrev;
    Unlink(next, prev, h, q, k);
    UnlinkApart(next, prev, h, q, k, h', q');
    DistinctOf(next, prev, h, q);
    DistinctWithout(q, k);
  }

  lemma DistinctOf<N(!new)>(next: map<N, N>, prev: map<N, N>, h: N, q: seq<N>)
    requires Ring(next, prev, h, q)
    ensures Distinct(q)
  {
  }

  lemma PairTail<N(!new)>(next: map<N, N>, prev: map<N, N>, h: N, q: seq<N>, x: N, h': N, q': seq<N>)
    requires Pair(next, prev, h, q, h', q') && x != h && x !in q && x != h' && x !in q'
    ensures h in prev
    ensures Pair(next[prev[h] := x][x := h], prev[x := prev[h]][h := x], h, q + [x], h', q')
  {
    hide Ring;
    InsertTail(next, prev, h, q, x);
    InsertTailApart(next, prev, h, q, x, h', q');
  }

  lemma PairRotate<N(!new)>(next: map<N, N>, prev: map<N, N>, h: N, q: seq<N>, h': N, q': seq<N>)
    requires Pair(next, prev, h, q, h', q') && |q| >= 2
    ensures h in next && h in prev && next[h] in next
    ensures Pair(RotateNext(next, prev, h), RotatePrev(next, prev, h), h, q[1..] + [q[0]], h', q')
  {
    hide Ring, RotateNext, RotatePrev;
    Rotate(next, prev, h, q);
    RotateApart(next, prev, h, q, h', q');
    assert q == [q[0]] + q[1..];
  }

  lemma PairSwap<N(!new)>(next: map<N, N>, prev: map<N, N>, h: N, q: seq<N>, h': N, q': seq<N>)
    requires Pair(next, prev, h, q, h', q')
    ensures Pair(next, prev, h', q', h, q)
  {
    hide Ring;
  }
}
