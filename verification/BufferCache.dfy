/** The sector cache between the file system and the card. */
module BufferCache {
  import opened Rings

  type Sector = seq<int>

  const NBUF: int := 0x5000
  const HEAD: int := -1                   // &bcache->head
  const NULL: int := -2
  const WRITE_BACK: int := 0
  const WRITE_THROUGH: int := 1

  /** The buffers' fields, by buffer number. */
  datatype Buf = Buf(valid: bool, dirty: bool, sectorid: int, data: Sector)

  /** `at` sends every cached sector to the one buffer holding it; a clean buffer agrees with the disk. */
  ghost predicate Coherent(bufs: seq<Buf>, disk: map<int, Sector>, q: seq<int>, at: map<int, int>) {
    && |bufs| == NBUF
    && (forall i :: i in q ==> 0 <= i < NBUF)
    && (forall i :: 0 <= i < NBUF ==> (bufs[i].valid <==> i in q))
    && (forall i :: i in q ==> bufs[i].sectorid in at && at[bufs[i].sectorid] == i)
    && (forall s :: s in at ==> at[s] in q && bufs[at[s]].sectorid == s && s in disk)
    && (forall i :: i in q && !bufs[i].dirty ==> bufs[i].sectorid in disk && bufs[i].data == disk[bufs[i].sectorid])
  }

  /** The contents of the card as users of the cache see them. */
  ghost function Flat(bufs: seq<Buf>, disk: map<int, Sector>, at: map<int, int>): map<int, Sector>
    requires |bufs| == NBUF && forall s :: s in at ==> 0 <= at[s] < NBUF
  {
    map s | s in disk :: if s in at then bufs[at[s]].data else disk[s]
  }

  /** The card has changed, if at all, only to what users see. */
  ghost predicate Catches(disk: map<int, Sector>, disk': map<int, Sector>, flat: map<int, Sector>) {
    forall t :: t in disk ==> t in disk' && t in flat && (disk'[t] == disk[t] || disk'[t] == flat[t])
  }

  /** What `head.prev` is. */
  lemma LastBuf(next: map<int, int>, prev: map<int, int>, bufs: seq<Buf>, disk: map<int, Sector>, q: seq<int>,
                at: map<int, int>, fills: seq<int>)
    requires Ring(next, prev, HEAD, q) && Coherent(bufs, disk, q, at) && Fifo(q, fills) && q != []
    ensures HEAD in prev && prev[HEAD] == q[|q| - 1] && q[|q| - 1] in q && 0 <= prev[HEAD] < NBUF && Distinct(q)
    ensures bufs[prev[HEAD]].sectorid in disk
    ensures Victim(prev[HEAD], q, fills) && Fifo(q[..|q| - 1], fills) && Without(q, |q| - 1) == q[..|q| - 1]
  {
    assert q[|q| - 1] in q;
  }

  lemma FifoPush(q: seq<int>, fills: seq<int>, b: int)
    requires Fifo(q, fills)
    ensures Fifo([b] + q, fills + [b])
  {
  }

  lemma NoneCached(bufs: seq<Buf>, disk: map<int, Sector>, q: seq<int>, at: map<int, int>, s: int)
    requires Coherent(bufs, disk, q, at) && forall j :: 0 <= j < |q| ==> q[j] in q && bufs[q[j]].sectorid != s
    ensures s !in at
  {
  }

  ghost predicate Full(bufs: seq<Buf>) {
    forall i :: 0 <= i < |bufs| ==> bufs[i].valid
  }

  /** If every buffer is in use, there is an oldest one. */
  lemma AllValidNonEmpty(bufs: seq<Buf>, disk: map<int, Sector>, q: seq<int>, at: map<int, int>)
    requires Coherent(bufs, disk, q, at) && Full(bufs)
    ensures q != []
  {
    assert 0 in q;
  }

  /** The queue holds the latest fills, the last one in front: its last member is the one filled longest ago. */
  ghost predicate Fifo(q: seq<int>, fills: seq<int>) {
    |q| <= |fills| && forall j :: 0 <= j < |q| ==> q[j] == fills[|fills| - 1 - j]
  }

  /** Buffer b is the one filled longest ago of those in the queue. */
  ghost predicate Victim(b: int, q: seq<int>, fills: seq<int>) {
    0 < |q| <= |fills| && b == q[|q| - 1] == fills[|fills| - |q|]
  }

  /** The queue without the member a fill has to make room for. */
  ghost function Kept(bufs: seq<Buf>, q: seq<int>): seq<int> {
    if Full(bufs) && q != [] then q[..|q| - 1] else q
  }

  /** A miss of sector s: the lowest unused buffer, or the oldest one, whose sector is then cached no more. */
  ghost predicate Filled(bufs: seq<Buf>, at: map<int, int>, q: seq<int>, s: int, bufs': seq<Buf>, at': map<int, int>,
                         b: int) {
    && |bufs| == |bufs'| == NBUF && 0 <= b < NBUF
    && (!Full(bufs) ==> && bufs' == bufs[b := bufs'[b]] && at' == at[s := b] && bufs'[b].valid
                        && !bufs[b].valid && forall i :: 0 <= i < b ==> bufs[i].valid)
    && (Full(bufs) ==> q != [] && b == q[|q| - 1] && at' == (at - {bufs[b].sectorid})[s := b])
  }

  /** Evicting buffer b: the card gets its data if they are newer. */
  ghost predicate Evicted(bufs: seq<Buf>, disk: map<int, Sector>, b: int, bufs': seq<Buf>, disk': map<int, Sector>) {
    && |bufs| == |bufs'| == NBUF && 0 <= b < NBUF
    && (forall i :: 0 <= i < NBUF && i != b ==> bufs'[i] == bufs[i]) && !bufs'[b].valid
    && disk' == if bufs[b].dirty then disk[bufs[b].sectorid := bufs[b].data] else disk
  }

  lemma EvictKeeps(bufs: seq<Buf>, disk: map<int, Sector>, q: seq<int>, at: map<int, int>, k: int,
                   bufs': seq<Buf>, disk': map<int, Sector>)
    requires Coherent(bufs, disk, q, at) && Distinct(q) && 0 <= k < |q| && q[k] in q
    requires Evicted(bufs, disk, q[k], bufs', disk')
    ensures Coherent(bufs', disk', Without(q, k), at - {bufs[q[k]].sectorid})
    ensures disk'.Keys == disk.Keys
    ensures Flat(bufs', disk', at - {bufs[q[k]].sectorid}) == Flat(bufs, disk, at)
  {
    DistinctWithout(q, k);
    var at' := at - {bufs[q[k]].sectorid};
    assert forall s :: s in disk ==> Flat(bufs', disk', at')[s] == Flat(bufs, disk, at)[s];
  }

  lemma EvictCatches(bufs: seq<Buf>, disk: map<int, Sector>, q: seq<int>, at: map<int, int>, b: int,
                     bufs': seq<Buf>, disk': map<int, Sector>)
    requires Coherent(bufs, disk, q, at) && b in q && Evicted(bufs, disk, b, bufs', disk')
    ensures Catches(disk, disk', Flat(bufs, disk, at))
  {
  }

  lemma CatchesSelf(bufs: seq<Buf>, disk: map<int, Sector>, q: seq<int>, at: map<int, int>)
    requires Coherent(bufs, disk, q, at)
    ensures Catches(disk, disk, Flat(bufs, disk, at))
  {
  }

  /** Filling an unused buffer from the card. */
  lemma RefillKeeps(bufs: seq<Buf>, disk: map<int, Sector>, q: seq<int>, at: map<int, int>, b: int, s: int)
    requires Coherent(bufs, disk, q, at) && 0 <= b < NBUF && b !in q && s in disk && s !in at
    ensures Coherent(bufs[b := Buf(true, false, s, disk[s])], disk, [b] + q, at[s := b])
    ensures Flat(bufs[b := Buf(true, false, s, disk[s])], disk, at[s := b]) == Flat(bufs, disk, at)
  {
    hide Flat;
    assert forall i :: i in [b] + q <==> i == b || i in q;
    RefillFlat(bufs, disk, q, at, b, s);
  }

  lemma RefillFlat(bufs: seq<Buf>, disk: map<int, Sector>, q: seq<int>, at: map<int, int>, b: int, s: int)
    requires Coherent(bufs, disk, q, at) && 0 <= b < NBUF && b !in q && s in disk && s !in at
    ensures Flat(bufs[b := Buf(true, false, s, disk[s])], disk, at[s := b]) == Flat(bufs, disk, at)
  {
    var bufs', at' := bufs[b := Buf(true, false, s, disk[s])], at[s := b];
    assert forall t :: t in disk ==> Flat(bufs', disk, at')[t] == Flat(bufs, disk, at)[t];
  }

  /** New data in a cached sector, kept back or passed on to the card. */
  lemma PutKeeps(bufs: seq<Buf>, disk: map<int, Sector>, q: seq<int>, at: map<int, int>, s: int, d: Sector,
                 through: bool)
    requires Coherent(bufs, disk, q, at) && s in at
    ensures var b := at[s];
            var bufs' := if through then bufs[b := bufs[b].(data := d)]
                         else bufs[b := bufs[b].(data := d, dirty := true)];
            var disk' := if through then disk[s := d] else disk;
            && Coherent(bufs', disk', q, at) && disk'.Keys == disk.Keys
            && Flat(bufs', disk', at) == Flat(bufs, disk, at)[s := d]
  {
    var b := at[s];
    var bufs' := if through then bufs[b := bufs[b].(data := d)] else bufs[b := bufs[b].(data := d, dirty := true)];
    var disk' := if through then disk[s := d] else disk;
    assert forall t :: t in disk ==> Flat(bufs', disk', at)[t] == Flat(bufs, disk, at)[s := d][t];
  }

  /** Writing one buffer back. */
  lemma FlushKeeps(bufs: seq<Buf>, disk: map<int, Sector>, q: seq<int>, at: map<int, int>, b: int)
    requires Coherent(bufs, disk, q, at) && b in q
    ensures var bufs', disk' := bufs[b := bufs[b].(dirty := false)], disk[bufs[b].sectorid := bufs[b].data];
            && Coherent(bufs', disk', q, at) && disk'.Keys == disk.Keys
            && Flat(bufs', disk', at) == Flat(bufs, disk, at)
  {
    var bufs', disk' := bufs[b := bufs[b].(dirty := false)], disk[bufs[b].sectorid := bufs[b].data];
    assert forall t :: t in disk ==> Flat(bufs', disk', at)[t] == Flat(bufs, disk, at)[t];
  }

  /** With every buffer clean the card holds what users see. */
  lemma AllCleanIsDisk(bufs: seq<Buf>, disk: map<int, Sector>, q: seq<int>, at: map<int, int>)
    requires Coherent(bufs, disk, q, at) && forall i :: i in q ==> !bufs[i].dirty
    ensures Flat(bufs, disk, at) == disk
  {
    assert forall t :: t in disk ==> Flat(bufs, disk, at)[t] == disk[t];
  }

  /** What the loop of `bwrite` stores: the first sector of the source, n times over. */
  ghost function Stored(flat: map<int, Sector>, mem: seq<Sector>, n: nat, sectorid: int): map<int, Sector>
    requires n <= |mem|
  {
    if n == 0 then flat else Stored(flat, mem, n - 1, sectorid)[sectorid + n - 1 := mem[0]]
  }

  /** What callers mean by writing n sectors. */
  ghost function Intended(flat: map<int, Sector>, mem: seq<Sector>, n: nat, sectorid: int): map<int, Sector>
    requires n <= |mem|
  {
    if n == 0 then flat else Intended(flat, mem, n - 1, sectorid)[sectorid + n - 1 := mem[n - 1]]
  }

  lemma {:induction false} StoredAt(flat: map<int, Sector>, mem: seq<Sector>, n: nat, sectorid: int, j: nat)
    requires j < n <= |mem|
    ensures sectorid + j in Stored(flat, mem, n, sectorid) && Stored(flat, mem, n, sectorid)[sectorid + j] == mem[0]
    ensures sectorid + j in Intended(flat, mem, n, sectorid) && Intended(flat, mem, n, sectorid)[sectorid + j] == mem[j]
  {
    if j < n - 1 {
      StoredAt(flat, mem, n - 1, sectorid, j);
    }
  }

  /** `bwrite` does what callers mean exactly when all source sectors are equal, so in particular for one sector. */
  lemma {:induction false} BwriteIntendedIff(flat: map<int, Sector>, mem: seq<Sector>, n: nat, sectorid: int)
    requires n <= |mem|
    ensures Stored(flat, mem, n, sectorid) == Intended(flat, mem, n, sectorid)
            <==> forall j :: 0 <= j < n ==> mem[j] == mem[0]
  {
    if n > 0 {
      BwriteIntendedIff(flat, mem, n - 1, sectorid);
      if Stored(flat, mem, n, sectorid) == Intended(flat, mem, n, sectorid) {
        forall j | 0 <= j < n ensures mem[j] == mem[0] {
          StoredAt(flat, mem, n, sectorid, j);
        }
      }
    }
  }

  /** What the loop of `bread` leaves: all n sectors have gone to the first place of the destination. */
  ghost function Loaded(flat: map<int, Sector>, mem: seq<Sector>, n: nat, sectorid: int): seq<Sector>
    requires n <= |mem| && forall s :: sectorid <= s < sectorid + n ==> s in flat
  {
    if n == 0 then mem else mem[0 := flat[sectorid + n - 1]]
  }

  /** What callers mean by reading n sectors. */
  ghost function Meant(flat: map<int, Sector>, mem: seq<Sector>, n: nat, sectorid: int): seq<Sector>
    requires n <= |mem| && forall s :: sectorid <= s < sectorid + n ==> s in flat
  {
    seq(|mem|, j requires 0 <= j < |mem| => if j < n then flat[sectorid + j] else mem[j])
  }

  /** `bread` does what callers mean exactly when the first sector equals the last and the destination held the others
      before. */
  lemma BreadIntendedIff(flat: map<int, Sector>, mem: seq<Sector>, n: nat, sectorid: int)
    requires n <= |mem| && forall s :: sectorid <= s < sectorid + n ==> s in flat
    ensures Loaded(flat, mem, n, sectorid) == Meant(flat, mem, n, sectorid)
       <==> n == 0 || (flat[sectorid + n - 1] == flat[sectorid]
                       && forall j :: 1 <= j < n ==> mem[j] == flat[sectorid + j])
  {
    var got, want := Loaded(flat, mem, n, sectorid), Meant(flat, mem, n, sectorid);
    if n > 0 {
      assert want[0] == flat[sectorid];
      if got == want {
        forall j | 1 <= j < n ensures mem[j] == flat[sectorid + j] {
          assert got[j] == mem[j] && want[j] == flat[sectorid + j];
        }
      }
    }
  }

  /** A sector of one byte over and over. */
  function Plain(x: int): Sector {
    seq(512, _ => x)
  }

  /** Two sectors that differ: both end up as the first. */
  lemma BwriteTwoFails()
    ensures var flat, mem := map[8 := Plain(0), 9 := Plain(0)], [Plain(1), Plain(2)];
            && Stored(flat, mem, 2, 8) == map[8 := Plain(1), 9 := Plain(1)]
            && Intended(flat, mem, 2, 8) == map[8 := Plain(1), 9 := Plain(2)]
            && Stored(flat, mem, 2, 8) != Intended(flat, mem, 2, 8)
  {
    var flat, mem := map[8 := Plain(0), 9 := Plain(0)], [Plain(1), Plain(2)];
    assert Stored(flat, mem, 1, 8) == map[8 := Plain(1), 9 := Plain(0)] == Intended(flat, mem, 1, 8);
    assert Stored(flat, mem, 2, 8)[9][0] != Intended(flat, mem, 2, 8)[9][0];
  }

  /** Two sectors that differ: the second lands on the first. */
  lemma BreadTwoFails()
    ensures var flat, mem := map[8 := Plain(1), 9 := Plain(2)], [Plain(0), Plain(0)];
            && Loaded(flat, mem, 2, 8) == [Plain(2), Plain(0)] && Meant(flat, mem, 2, 8) == [Plain(1), Plain(2)]
            && Loaded(flat, mem, 2, 8) != Meant(flat, mem, 2, 8)
  {
    assert Plain(1)[0] != Plain(2)[0];
  }

  /** The card holds the source's first sector throughout the first n of the range. */
  ghost predicate OnCard(disk: map<int, Sector>, mem: seq<Sector>, n: int, sectorid: int) {
    forall s :: sectorid <= s < sectorid + n ==> mem != [] && s in disk && disk[s] == mem[0]
  }

  lemma StoredNone(flat: map<int, Sector>, disk: map<int, Sector>, mem: seq<Sector>, sectorid: int)
    ensures Stored(flat, mem, 0, sectorid) == flat && OnCard(disk, mem, 0, sectorid)
  {
  }

  lemma StoredNext(flat: map<int, Sector>, disk: map<int, Sector>, mem: seq<Sector>, n: nat, sectorid: int)
    requires n < |mem|
    ensures Stored(flat, mem, n + 1, sectorid) == Stored(flat, mem, n, sectorid)[sectorid + n := mem[0]]
    ensures OnCard(disk, mem, n, sectorid) ==> OnCard(disk[sectorid + n := mem[0]], mem, n + 1, sectorid)
  {
  }

  /** What caching brings to the card is no news to it. */
  lemma StillOnCard(disk: map<int, Sector>, disk': map<int, Sector>, flat: map<int, Sector>, mem: seq<Sector>, n: nat,
                    sectorid: int)
    requires n < |mem| && Catches(disk, disk', Stored(flat, mem, n, sectorid))
    ensures OnCard(disk, mem, n, sectorid) ==> OnCard(disk', mem, n, sectorid)
  {
    forall s | sectorid <= s < sectorid + n
      ensures s in Stored(flat, mem, n, sectorid) && Stored(flat, mem, n, sectorid)[s] == mem[0]
    {
      StoredAt(flat, mem, n, sectorid, s - sectorid);
    }
  }

  lemma CachedIsFlat(bufs: seq<Buf>, disk: map<int, Sector>, q: seq<int>, at: map<int, int>, s: int)
    requires Coherent(bufs, disk, q, at) && s in at
    ensures 0 <= at[s] < |bufs| && s in Flat(bufs, disk, at) && Flat(bufs, disk, at)[s] == bufs[at[s]].data
  {
  }

  lemma FlatKeys(bufs: seq<Buf>, disk: map<int, Sector>, q: seq<int>, at: map<int, int>)
    requires Coherent(bufs, disk, q, at)
    ensures Flat(bufs, disk, at).Keys == disk.Keys
  {
  }

  /** The first k of the queue are clean. */
  ghost predicate CleanTo(bufs: seq<Buf>, q: seq<int>, k: int) {
    forall j :: 0 <= j < k && j < |q| ==> 0 <= q[j] < |bufs| && !bufs[q[j]].dirty
  }

  lemma CleanNone(bufs: seq<Buf>, q: seq<int>)
    ensures CleanTo(bufs, q, 0)
  {
  }

  lemma CleanStep(bufs: seq<Buf>, q: seq<int>, k: nat)
    requires CleanTo(bufs, q, k) && k < |q| && 0 <= q[k] < |bufs|
    ensures CleanTo(bufs[q[k] := bufs[q[k]].(dirty := false)], q, k + 1)
    ensures !bufs[q[k]].dirty ==> CleanTo(bufs, q, k + 1)
  {
  }

  lemma CleanAll(bufs: seq<Buf>, q: seq<int>)
    requires CleanTo(bufs, q, |q|)
    ensures forall i :: i in q ==> 0 <= i < |bufs| && !bufs[i].dirty
  {
  }

  lemma HeadNext(next: map<int, int>, prev: map<int, int>, q: seq<int>)
    requires Ring(next, prev, HEAD, q)
    ensures HEAD in next && next[HEAD] == After(HEAD, q, -1)
  {
  }

  lemma QueueEnd(next: map<int, int>, prev: map<int, int>, q: seq<int>, k: nat)
    requires Ring(next, prev, HEAD, q) && k <= |q| && After(HEAD, q, k - 1) == HEAD
    ensures k == |q|
  {
    assert HEAD !in q;
  }

  lemma QueueMember(next: map<int, int>, prev: map<int, int>, bufs: seq<Buf>, disk: map<int, Sector>, q: seq<int>,
                    at: map<int, int>, k: nat)
    requires Ring(next, prev, HEAD, q) && Coherent(bufs, disk, q, at) && k <= |q| && After(HEAD, q, k - 1) != HEAD
    ensures k < |q| && q[k] in q && 0 <= q[k] < |bufs| && bufs[q[k]].sectorid in disk
  {
    assert k < |q| ==> q[k] in q;
  }

  class BCache {
    var bufs: seq<Buf>
    var next: map<int, int>
    var prev: map<int, int>
    var disk: map<int, Sector>
    var policy: int                       // page_cache_policy
    ghost var q: seq<int>                 // from head.next on
    ghost var at: map<int, int>
    ghost var fills: seq<int>             // the buffers filled so far, in order
    ghost var uses: seq<int>              // the sectors asked for so far, in order

    ghost predicate Valid()
      reads this
    {
      Ring(next, prev, HEAD, q) && Coherent(bufs, disk, q, at) && |bufs| == NBUF && Fifo(q, fills)
    }

    ghost function Contents(): map<int, Sector>
      reads this
      requires Valid()
    {
      Flat(bufs, disk, at)
    }

    /** `init_bcache`, on buffers holding anything. */
    constructor (disk: map<int, Sector>, junk: seq<Buf>)
      requires |junk| == NBUF
      ensures Valid() && this.disk == disk && Contents() == disk && q == [] && policy == WRITE_BACK
      ensures uses == [] && forall i :: 0 <= i < NBUF ==> !bufs[i].valid
    {
      this.disk, policy := disk, WRITE_BACK;
      next, prev := map[HEAD := HEAD], map[HEAD := HEAD];
      bufs := seq(NBUF, i requires 0 <= i < NBUF => junk[i].(valid := false));
      q, at, fills, uses := [], map[], [], [];
    }

    /** `search_buf` */
    method SearchBuf(s: int) returns (b: int)
      requires Valid()
      ensures if s in at then b == at[s] && 0 <= b < NBUF else b == NULL
    {
      b := next[HEAD];
      ghost var k := 0;
      while b != HEAD
        invariant 0 <= k <= |q| && b == After(HEAD, q, k - 1)
        invariant forall j :: 0 <= j < k ==> q[j] in q && bufs[q[j]].sectorid != s
        decreases |q| - k
      {
        assert q[k] in q;
        if bufs[b].valid && bufs[b].sectorid == s {
          return;
        }
        Neighbours(next, prev, HEAD, q, k);
        b := next[b];
        k := k + 1;
      }
      NoneCached(bufs, disk, q, at, s);
      return NULL;
    }

    /** `find_free_buf`: an unused buffer, or the oldest one, written back if dirty. */
    method FindFreeBuf() returns (b: int)
      requires Valid()
      modifies this`bufs, this`disk, this`next, this`prev, this`q, this`at
      ensures Valid() && 0 <= b < NBUF && b !in q && q == old(Kept(bufs, q))
      ensures disk.Keys == old(disk.Keys) && Contents() == old(Contents()) && Catches(old(disk), disk, Contents())
      ensures !old(Full(bufs)) ==>
                bufs == old(bufs) && at == old(at) && !bufs[b].valid && forall i :: 0 <= i < b ==> bufs[i].valid
      ensures old(Full(bufs)) ==> Victim(b, old(q), old(fills)) && at == old(at) - {old(bufs)[b].sectorid}
    {
      b := 0;
      while b < NBUF
        invariant 0 <= b <= NBUF && forall i :: 0 <= i < b ==> bufs[i].valid
      {
        if !bufs[b].valid {
          return;
        }
        b := b + 1;
      }
      AllValidNonEmpty(bufs, disk, q, at);
      b := Evict();
    }

    /** The eviction part: unlink `head.prev`. */
    method Evict() returns (b: int)
      requires Valid() && q != []
      modifies this`bufs, this`disk, this`next, this`prev, this`q, this`at
      ensures Valid() && 0 <= b < NBUF && b !in q
      ensures disk.Keys == old(disk.Keys) && Contents() == old(Contents()) && Catches(old(disk), disk, Contents())
      ensures Victim(b, old(q), old(fills)) && q == old(q)[..|old(q)| - 1] && at == old(at) - {old(bufs)[b].sectorid}
    {
      hide Flat, Coherent, Ring, Fifo, Distinct, Without, Victim, Catches;
      ghost var k := |q| - 1;
      LastBuf(next, prev, bufs, disk, q, at, fills);
      b := prev[HEAD];
      ghost var bufs0, disk0, s := bufs, disk, bufs[b].sectorid;
      if bufs[b].dirty {
        disk := disk[bufs[b].sectorid := bufs[b].data];
        bufs := bufs[b := bufs[b].(dirty := false)];
      }
      bufs := bufs[b := bufs[b].(valid := false, sectorid := 0)];
      EvictKeeps(bufs0, disk0, q, at, k, bufs, disk);
      EvictCatches(bufs0, disk0, q, at, b, bufs, disk);
      Unlink(next, prev, HEAD, q, k);
      DistinctWithout(q, k);
      var n, p := next[b], prev[b];
      prev := prev[n := p];
      next := next[p := n];
      next, prev := next - {b}, prev - {b};
      q, at := q[..k], at - {s};
    }

    /** `brefill`: reads a sector into a free buffer and links it in front. */
    method Refill(s: int) returns (b: int)
      requires Valid() && s in disk && s !in at
      modifies this`bufs, this`disk, this`next, this`prev, this`q, this`at, this`fills
      ensures Valid() && s in at && b == at[s] && 0 <= b < NBUF
      ensures disk.Keys == old(disk.Keys) && Contents() == old(Contents()) && Catches(old(disk), disk, Contents())
      ensures q == [b] + old(Kept(bufs, q)) && fills == old(fills) + [b]
              && Filled(old(bufs), old(at), old(q), s, bufs, at, b)
    {
      hide Flat, Coherent, Full, Ring, Fifo, Kept, Catches;
      b := FindFreeBuf();
      FifoPush(q, fills, b);
      RefillKeeps(bufs, disk, q, at, b, s);
      InsertHead(next, prev, HEAD, q, b);
      bufs := bufs[b := Buf(true, false, s, disk[s])];
      var n := next[HEAD];
      next := next[b := n];
      prev := prev[b := HEAD];
      prev := prev[n := b];
      next := next[HEAD := b];
      q, at, fills := [b] + q, at[s := b], fills + [b];
    }

    /** One pass of the loops of `bread` and `bwrite`: the buffer of a sector, filled if it was not cached. */
    method Fetch(s: int) returns (b: int)
      requires Valid() && s in disk
      modifies this`bufs, this`disk, this`next, this`prev, this`q, this`at, this`fills, this`uses
      ensures Valid() && s in at && b == at[s] && 0 <= b < NBUF && uses == old(uses) + [s]
      ensures disk.Keys == old(disk.Keys) && Contents() == old(Contents()) && Catches(old(disk), disk, Contents())
      ensures s in old(at) ==>
                bufs == old(bufs) && q == old(q) && fills == old(fills) && at == old(at) && disk == old(disk)
      ensures s !in old(at) ==> q == [b] + old(Kept(bufs, q)) && fills == old(fills) + [b]
      ensures s !in old(at) ==> Filled(old(bufs), old(at), old(q), s, bufs, at, b)
    {
      hide Flat, Coherent, Ring, Fifo, Full, Kept, Catches;
      CatchesSelf(bufs, disk, q, at);
      b := SearchBuf(s);
      if b == NULL {
        b := Refill(s);
      }
      uses := uses + [s];
    }

    /** `bwrite` as it is written: every sector of the range receives the first 512 bytes. */
    method Bwrite(mem: seq<Sector>, nsectors: nat, sectorid: int)
      requires Valid() && |mem| == nsectors && (forall s :: sectorid <= s < sectorid + nsectors ==> s in disk)
      modifies this`bufs, this`disk, this`next, this`prev, this`q, this`at, this`fills, this`uses
      ensures Valid() && disk.Keys == old(disk.Keys)
      ensures Contents() == Stored(old(Contents()), mem, nsectors, sectorid)
      ensures policy == WRITE_THROUGH ==> OnCard(disk, mem, nsectors, sectorid)
      ensures policy != WRITE_THROUGH && (forall s :: sectorid <= s < sectorid + nsectors ==> s in old(at)) ==>
                disk == old(disk)
    {
      hide Flat, Coherent, Ring, Fifo, Filled, Kept, Catches, OnCard, Stored;
      StoredNone(Contents(), disk, mem, sectorid);
      ghost var hits := forall s :: sectorid <= s < sectorid + nsectors ==> s in at;
      var i := 0;
      while i < nsectors
        invariant 0 <= i <= nsectors && Valid() && disk.Keys == old(disk.Keys)
        invariant Contents() == Stored(old(Contents()), mem, i, sectorid)
        invariant policy == WRITE_THROUGH ==> OnCard(disk, mem, i, sectorid)
        invariant policy != WRITE_THROUGH && hits ==> disk == old(disk) && at == old(at)
      {
        ghost var disk0 := disk;
        var s := sectorid + i;
        var b := Fetch(s);
        StillOnCard(disk0, disk, old(Contents()), mem, i, sectorid);
        StoredNext(old(Contents()), disk, mem, i, sectorid);
        PutKeeps(bufs, disk, q, at, s, mem[0], policy == WRITE_THROUGH);
        ghost var bufs0 := bufs;
        bufs := bufs[b := bufs[b].(data := mem[0])];
        if policy == WRITE_THROUGH {
          disk := disk[s := bufs[b].data];
        } else {
          bufs := bufs[b := bufs[b].(dirty := true)];
          assert bufs == bufs0[b := bufs0[b].(data := mem[0], dirty := true)];
        }
        i := i + 1;
      }
    }

    /** `bread` as it is written: every sector of the range lands on the same 512 bytes. */
    method Bread(mem: seq<Sector>, nsectors: nat, sectorid: int) returns (mem': seq<Sector>)
      requires Valid() && |mem| == nsectors && (forall s :: sectorid <= s < sectorid + nsectors ==> s in disk)
      modifies this`bufs, this`disk, this`next, this`prev, this`q, this`at, this`fills, this`uses
      ensures Valid() && disk.Keys == old(disk.Keys) && Contents() == old(Contents())
      ensures (forall s :: sectorid <= s < sectorid + nsectors ==> s in Contents())
      ensures mem' == Loaded(Contents(), mem, nsectors, sectorid)
      ensures |mem'| == nsectors && forall j :: 1 <= j < nsectors ==> mem'[j] == mem[j]
    {
      hide Flat, Coherent, Ring, Fifo, Filled, Kept;
      mem' := mem;
      FlatKeys(bufs, disk, q, at);
      var i := 0;
      while i < nsectors
        invariant 0 <= i <= nsectors && Valid() && disk.Keys == old(disk.Keys) && Contents() == old(Contents())
        invariant Contents().Keys == disk.Keys && mem' == Loaded(Contents(), mem, i, sectorid)
      {
        var b := Fetch(sectorid + i);
        CachedIsFlat(bufs, disk, q, at, sectorid + i);
        mem' := mem'[0 := bufs[b].data];
        i := i + 1;
      }
    }

    /** `bflush` */
    method Bflush()
      requires Valid()
      modifies this`bufs, this`disk
      ensures Valid() && Contents() == old(Contents()) && disk == Contents()
    {
      hide Flat, Coherent, Ring, Fifo, CleanTo;
      HeadNext(next, prev, q);
      CleanNone(bufs, q);
      var b := next[HEAD];
      ghost var k := 0;
      while b != HEAD
        invariant 0 <= k <= |q| && b == After(HEAD, q, k - 1)
        invariant Valid() && Contents() == old(Contents()) && CleanTo(bufs, q, k)
        decreases |q| - k
      {
        QueueMember(next, prev, bufs, disk, q, at, k);
        CleanStep(bufs, q, k);
        if bufs[b].dirty {
          FlushKeeps(bufs, disk, q, at, b);
          disk := disk[bufs[b].sectorid := bufs[b].data];
          bufs := bufs[b := bufs[b].(dirty := false)];
        }
        Neighbours(next, prev, HEAD, q, k);
        b := next[b];
        k := k + 1;
      }
      QueueEnd(next, prev, q, k);
      CleanAll(bufs, q);
      AllCleanIsDisk(bufs, disk, q, at);
    }

    /** Switching between write-back and write-through shows nothing to users. */
    method SetPolicy(p: int)
      requires Valid()
      modifies this`policy
      ensures Valid() && Contents() == old(Contents()) && policy == p
    {
      policy := p;
    }
  }
  /** After sectors 0 to n-1 of an empty cache were asked for in turn. */
  ghost predicate Loading(bufs: seq<Buf>, q: seq<int>, at: map<int, int>, n: int) {
    && |bufs| == NBUF && 0 <= n <= NBUF && (forall s :: s in at <==> 0 <= s < n) && (forall s :: s in at ==> at[s] == s)
    && (forall i :: 0 <= i < NBUF ==> (bufs[i].valid <==> i < n)) && (forall i :: 0 <= i < n ==> bufs[i].sectorid == i)
    && |q| == n && (n > 0 ==> q[n - 1] == 0)
  }

  lemma LoadingStep(bufs: seq<Buf>, disk: map<int, Sector>, q: seq<int>, at: map<int, int>, n: int,
                    bufs': seq<Buf>, disk': map<int, Sector>, q': seq<int>, at': map<int, int>, b: int)
    requires Loading(bufs, q, at, n) && n < NBUF && Coherent(bufs', disk', q', at')
    requires Filled(bufs, at, q, n, bufs', at', b) && q' == [b] + Kept(bufs, q)
    ensures Loading(bufs', q', at', n + 1)
  {
    assert !bufs[n].valid;
    assert b == n;
    assert at'[n] == n;
  }

  lemma LoadingNone(bufs: seq<Buf>, disk: map<int, Sector>, q: seq<int>, at: map<int, int>)
    requires Coherent(bufs, disk, q, at) && q == [] && forall i :: 0 <= i < NBUF ==> !bufs[i].valid
    ensures Loading(bufs, q, at, 0)
  {
  }

  /** With all buffers in use, a miss gives up sector 0, which was filled first. */
  lemma GivenUp(bufs: seq<Buf>, q: seq<int>, at: map<int, int>, bufs': seq<Buf>, at': map<int, int>, b: int)
    requires Loading(bufs, q, at, NBUF) && Filled(bufs, at, q, NBUF, bufs', at', b)
    ensures 0 !in at' && forall s :: 1 <= s <= NBUF ==> s in at'
  {
    assert Full(bufs);
  }

  /** Not the least recently used sector is given up: sector 0 goes although it was asked for right before, and sector 1
      stays although nobody has asked for it since. */
  method NotLru(disk: map<int, Sector>, junk: seq<Buf>) returns (c: BCache)
    requires |junk| == NBUF && forall s :: 0 <= s <= NBUF ==> s in disk
    ensures fresh(c) && c.Valid() && c.uses == seq(NBUF, i => i) + [0, NBUF]
    ensures 0 !in c.at && forall s :: 1 <= s <= NBUF ==> s in c.at
  {
    hide Flat, Coherent, Ring, Fifo, Kept, Filled;
    c := new BCache(disk, junk);
    LoadingNone(c.bufs, c.disk, c.q, c.at);
    var n := 0;
    while n < NBUF
      invariant 0 <= n <= NBUF && c.Valid() && Loading(c.bufs, c.q, c.at, n) && fresh(c)
      invariant c.disk.Keys == disk.Keys && c.uses == seq(n, i => i)
    {
      ghost var bufs, q, at := c.bufs, c.q, c.at;
      var b := c.Fetch(n);
      LoadingStep(bufs, disk, q, at, n, c.bufs, c.disk, c.q, c.at, b);
      n := n + 1;
    }
    var b := c.Fetch(0);
    ghost var bufs, q, at := c.bufs, c.q, c.at;
    b := c.Fetch(NBUF);
    GivenUp(bufs, q, at, c.bufs, c.at, b);
  }
}
