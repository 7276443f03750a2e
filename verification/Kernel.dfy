/** The kernel's queues as linked structures, and the system calls working on them. */
module Kernel {
  import opened Rings
  import opened Sched
  import opened Syscalls
  import opened Runs

  /** A list node: a queue head or the `list` field of a process. */
  datatype Link = H(h: Head) | P(c: int)

  type Links = map<Link, Link>

  function Nodes(s: seq<int>): seq<Link> {
    seq(|s|, i requires 0 <= i < |s| => P(s[i]))
  }

  lemma NodesIn(s: seq<int>, x: Link)
    ensures x in Nodes(s) <==> x.P? && x.c in s
  {
    if x.P? && x.c in s {
      var i :| 0 <= i < |s| && s[i] == x.c;
      assert Nodes(s)[i] == x;
    }
  }

  /** Every initialised head carries its queue, and a process on no queue has NULL links. */
  ghost predicate Linked(next: Links, prev: Links, t: Tasks, heads: set<Head>)
    requires Sized(t)
  {
    && (forall h :: h in heads ==> Ring(next, prev, H(h), Nodes(Q(t, h))))
    && (forall c :: IsPcb(c) && t.at[c] == Off ==> P(c) !in next && P(c) !in prev)
  }

  lemma HeadsApart(t: Tasks, g: Head, h: Head)
    requires Queued(t) && g != h
    ensures Apart(H(g), Nodes(Q(t, g)), H(h), Nodes(Q(t, h)))
  {
    forall x | x in Nodes(Q(t, g)) ensures x !in Nodes(Q(t, h)) {
      NodesIn(Q(t, g), x);
      NodesIn(Q(t, h), x);
      OnlyPlace(t, x.c, g);
      OnlyPlace(t, x.c, h);
    }
    NodesIn(Q(t, h), H(g));
    NodesIn(Q(t, g), H(h));
  }

  /** The last node of a queue is its head or one of its members. */
  lemma LastNode(next: Links, prev: Links, t: Tasks, heads: set<Head>, h: Head)
    requires Queued(t) && Linked(next, prev, t, heads) && h in heads
    ensures H(h) in prev && H(h) in next
    ensures prev[H(h)] == H(h) || (prev[H(h)].P? && IsPcb(prev[H(h)].c) && t.at[prev[H(h)].c] == On(h))
    ensures next[H(h)] == if Q(t, h) == [] then H(h) else P(Q(t, h)[0])
  {
    var q := Q(t, h);
    assert Ring(next, prev, H(h), Nodes(q));
    assert q != [] ==> q[|q| - 1] in q && Nodes(q)[0] == P(q[0]) && Nodes(q)[|q| - 1] == P(q[|q| - 1]);
  }

  lemma EnqueueLinked(next: Links, prev: Links, t: Tasks, heads: set<Head>, c: int, h: Head, s: Status)
    requires Queued(t) && Linked(next, prev, t, heads) && h in heads && IsPcb(c) && t.at[c] == Off
    ensures H(h) in prev && prev[H(h)] != P(c)
    ensures Linked(next[prev[H(h)] := P(c)][P(c) := H(h)], prev[P(c) := prev[H(h)]][H(h) := P(c)], Enqueue(t, c, h, s),
                   heads)
  {
    hide Ring, Queued, Apart;
    QueuedSized(t);
    LastNode(next, prev, t, heads, h);
    var n', p', t' := next[prev[H(h)] := P(c)][P(c) := H(h)], prev[P(c) := prev[H(h)]][H(h) := P(c)],
      Enqueue(t, c, h, s);
    forall g | g in heads ensures Ring(n', p', H(g), Nodes(Q(t', g))) {
      NotMember(t, g, c);
      if g == h {
        InsertTail(next, prev, H(h), Nodes(Q(t, h)), P(c));
        assert Nodes(Q(t, h) + [c]) == Nodes(Q(t, h)) + [P(c)];
      } else {
        HeadsApart(t, h, g);
        InsertTailApart(next, prev, H(h), Nodes(Q(t, h)), P(c), H(g), Nodes(Q(t, g)));
      }
    }
  }

  lemma NotMember(t: Tasks, g: Head, c: int)
    requires Queued(t) && IsPcb(c) && t.at[c] == Off
    ensures P(c) !in Nodes(Q(t, g))
  {
    NodesIn(Q(t, g), P(c));
  }

  lemma DequeueLinked(next: Links, prev: Links, t: Tasks, heads: set<Head>, h: Head, i: nat)
    requires Queued(t) && Linked(next, prev, t, heads) && h in heads && i < |Q(t, h)|
    ensures IsPcb(Q(t, h)[i])
    ensures var x := P(Q(t, h)[i]);
            && x in next && x in prev && next[x] != x && prev[x] != x
            && Linked(UnlinkNext(next, prev, x), UnlinkPrev(next, prev, x), Dequeue(t, h, i), heads)
  {
    hide Ring, Queued, Apart, UnlinkNext, UnlinkPrev, Without;
    QueuedSized(t);
    DequeueQueued(t, h, i);
    var c := Q(t, h)[i];
    var x, ns := P(c), Nodes(Q(t, h));
    assert ns[i] == x;
    UnlinkFacts(next, prev, h, Q(t, h), i);
    var t' := Dequeue(t, h, i);
    forall g | g in heads ensures Ring(UnlinkNext(next, prev, x), UnlinkPrev(next, prev, x), H(g), Nodes(Q(t', g))) {
      if g == h {
        Unlink(next, prev, H(h), ns, i);
        NodesWithout(Q(t, h), i);
      } else {
        HeadsApart(t, h, g);
        UnlinkApart(next, prev, H(h), ns, i, H(g), Nodes(Q(t, g)));
      }
    }
    forall d | IsPcb(d) && t'.at[d] == Off ensures P(d) !in UnlinkNext(next, prev, x)
      && P(d) !in UnlinkPrev(next, prev, x) {
      if d != c {
        NotMember(t, h, d);
      }
    }
  }

  lemma NodesWithout(s: seq<int>, i: nat)
    requires i < |s|
    ensures Nodes(Without(s, i)) == Without(Nodes(s), i)
  {
  }

  /** The neighbours of a member are the head or other members. */
  lemma UnlinkFacts(next: Links, prev: Links, h: Head, s: seq<int>, i: nat)
    requires Ring(next, prev, H(h), Nodes(s)) && i < |s|
    ensures var x := P(s[i]);
            && x in next && x in prev && next[x] != x && prev[x] != x
            && (next[x] == H(h) || next[x] in Nodes(s)) && (prev[x] == H(h) || prev[x] in Nodes(s))
            && (forall y :: y != x && y !in Nodes(s) && y != H(h) ==>
                  (y in UnlinkNext(next, prev, x) <==> y in next) && (y in UnlinkPrev(next, prev, x) <==> y in prev))
            && x !in UnlinkNext(next, prev, x) && x !in UnlinkPrev(next, prev, x)
  {
    assert Nodes(s)[i] == P(s[i]);
    Neighbours(next, prev, H(h), Nodes(s), i);
  }

  /** Pointing the head of an empty queue at itself. */
  lemma ResetLinked(next: Links, prev: Links, t: Tasks, heads: set<Head>, h: Head)
    requires Queued(t) && Linked(next, prev, t, heads) && Q(t, h) == []
    ensures Linked(next[H(h) := H(h)], prev[H(h) := H(h)], Reset(t, h), heads + {h})
  {
    hide Ring, Queued;
    var n', p' := next[H(h) := H(h)], prev[H(h) := H(h)];
    forall g | g in heads + {h} ensures Ring(n', p', H(g), Nodes(Q(Reset(t, h), g))) {
      if g == h {
        EmptyRing(n', p', h);
      } else {
        NodesIn(Q(t, g), H(h));
        RingNodes(next, prev, H(g), Nodes(Q(t, g)));
        Frame(next, prev, n', p', H(g), Nodes(Q(t, g)));
      }
    }
  }

  lemma EmptyRing(next: Links, prev: Links, h: Head)
    requires H(h) in next && H(h) in prev && next[H(h)] == H(h) && prev[H(h)] == H(h)
    ensures Ring(next, prev, H(h), Nodes([]))
  {
  }

  // ---------------------------------------------------------------- the machine

  /** The scheduling fields of the process table. */
  datatype Table = Table(status: seq<Status>, cur: seq<int>, cpu: seq<int>, wake: seq<int>, mask: seq<set<int>>)

  /** The queues as sequences, the history, and the heads that have been initialised. */
  datatype Shadow = Shadow(q: map<Head, seq<int>>, at: seq<Where>, y: Past, heads: set<Head>)

  predicate Fixed(h: Head) {
    match h
    case Ready => true
    case Sleep => true
    case Waiters(_) => false
    case _ => IsObj(h.i)
  }

  /** `do_block`, `add_readyqueue`: the pointer writes. */
  method LinkTail(next: Links, prev: Links, c: int, h: Head, ghost t: Tasks, ghost heads: set<Head>, ghost s: Status)
    returns (next': Links, prev': Links)
    requires Queued(t) && Linked(next, prev, t, heads) && h in heads && IsPcb(c) && t.at[c] == Off
    ensures Linked(next', prev', Enqueue(t, c, h, s), heads)
  {
    hide Linked, Queued, Enqueue;
    EnqueueLinked(next, prev, t, heads, c, h, s);
    var tail := prev[H(h)];
    next' := next[tail := P(c)];
    prev' := prev[P(c) := tail];
    prev' := prev'[H(h) := P(c)];
    next' := next'[P(c) := H(h)];
  }

  /** `do_unblock`, `remove_readyqueue`, `remove_pcb_queue`: the pointer writes. */
  method UnlinkNode(next: Links, prev: Links, c: int, ghost h: Head, ghost i: nat, ghost t: Tasks,
                    ghost heads: set<Head>)
    returns (next': Links, prev': Links)
    requires Queued(t) && Linked(next, prev, t, heads) && h in heads && i < |Q(t, h)| && Q(t, h)[i] == c
    ensures IsPcb(c) && Linked(next', prev', Dequeue(t, h, i), heads)
  {
    hide Linked, Queued, Dequeue;
    DequeueLinked(next, prev, t, heads, h, i);
    var nextNode, prevNode := next[P(c)], prev[P(c)];
    next', prev' := next - {P(c)}, prev - {P(c)};
    prev' := prev'[nextNode := prevNode];
    next' := next'[prevNode := nextNode];
    assert next' == UnlinkNext(next, prev, P(c)) && prev' == UnlinkPrev(next, prev, P(c));
  }

  class Machine {
    var next: Links
    var prev: Links
    var s: Table
    var x: Sync
    ghost var g: Shadow

    ghost function T(): Tasks
      reads this
    {
      Tasks(s.status, s.cur, s.cpu, s.wake, s.mask, g.q, g.at)
    }

    ghost function View(): K
      reads this
    {
      K(T(), x, g.y)
    }

    ghost predicate Valid()
      reads this
    {
      && Shape(View()) && Queued(T()) && Linked(next, prev, T(), g.heads)
      && (forall h :: Fixed(h) ==> h in g.heads) && (forall h :: h in g.heads ==> h in g.q)
      && (forall d :: IsPcb(d) && s.status[d] != EXITED ==> Waiters(d) in g.heads)
    }

    /** `init_pcb`, `init_locks`, `init_barriers`, `init_conditions`, `init_mbox`: the state every run starts from. */
    constructor (masks: seq<set<int>>, wake: seq<int>, pid: seq<int>, tid: seq<int>)
      requires |masks| == |wake| == |pid| == |tid| == N
      ensures Valid() && Sane(View()) && View() == Boots(masks, wake, pid, tid, g.heads)
    {
      hide Sane, Linked, Queued, Boots, AllHeads, Q;
      var all := AllHeads();
      var k := Boots(masks, wake, pid, tid, all);
      BootSane(masks, wake, pid, tid, all);
      next, prev := map h | h in all :: H(h) := H(h), map h | h in all :: H(h) := H(h);
      s := Table(k.t.status, k.t.cur, k.t.cpu, k.t.wake, k.t.mask);
      x := k.x;
      g := Shadow(k.t.q, k.t.at, k.y, all);
      new;
      assert T() == k.t && View() == k;
      SaneParts(k);
      AllHeadsIs();
      BootLinked(masks, wake, pid, tid, all, next, prev);
    }

    /** `do_block` */
    method DoBlock(c: int, h: Head)
      requires Valid() && IsPcb(c) && g.at[c] == Off && h in g.heads && s.status[c] != EXITED
      modifies this
      ensures Valid() && View() == old(View()).(t := Block(old(T()), c, h)) && g.heads == old(g.heads)
    {
      hide Linked, Queued, Q;
      EnqueueQueued(T(), c, h, BLOCKED);
      next, prev := LinkTail(next, prev, c, h, T(), g.heads, BLOCKED);
      ghost var t := Block(T(), c, h);
      s := s.(status := s.status[c := BLOCKED]);
      g := g.(q := t.q, at := t.at);
    }

    /** `add_readyqueue` */
    method AddReadyqueue(c: int)
      requires Valid() && IsPcb(c) && g.at[c] == Off && Waiters(c) in g.heads
      modifies this
      ensures Valid() && View() == old(View()).(t := AddReady(old(T()), c)) && g.heads == old(g.heads)
    {
      hide Linked, Queued, Q;
      EnqueueQueued(T(), c, Ready, READY);
      ghost var t := AddReady(T(), c);
      assert Fixed(Ready);
      next, prev := LinkTail(next, prev, c, Ready, T(), g.heads, READY);
      s := s.(status := s.status[c := READY]);
      g := g.(q := t.q, at := t.at);
    }

    /** `do_unblock`, for the i-th member of queue h. */
    method DoUnblock(c: int, ghost h: Head, ghost i: nat)
      requires Valid() && h in g.heads && i < |Q(T(), h)| && Q(T(), h)[i] == c && IsPcb(c) && s.status[c] != EXITED
      modifies this
      ensures Valid() && View() == old(View()).(t := Unblocked(old(T()), h, i)) && g.heads == old(g.heads)
    {
      hide Linked, Queued, Q;
      DequeueQueued(T(), h, i);
      ghost var t := Dequeue(T(), h, i);
      next, prev := UnlinkNode(next, prev, c, h, i, T(), g.heads);
      g := g.(q := t.q, at := t.at);
      AddReadyqueue(c);
    }

    /** `while (head.next != &head) do_unblock(head.next)` */
    method WakeQueue(h: Head)
      requires Valid() && h in g.heads && h != Ready && Statuses(T())
      modifies this
      ensures Valid() && View() == old(View()).(t := WakeAll(old(T()), h)) && g.heads == old(g.heads)
    {
      hide Linked, Queued, Wake, Unblocked;
      ghost var t0, q0, n := T(), Q(T(), h), 0;
      WakeNone(t0, h);
      LastNode(next, prev, T(), g.heads, h);
      while next[H(h)] != H(h)
        invariant 0 <= n <= |q0| && Valid() && g.heads == old(g.heads)
        invariant View() == old(View()).(t := Wake(t0, h, q0[n..], q0[..n]))
        invariant H(h) in next && next[H(h)] == if n == |q0| then H(h) else P(q0[n])
        decreases |q0| - n
      {
        WakeStep(t0, h, n);
        DoUnblock(next[H(h)].c, h, 0);
        n := n + 1;
        WakeHas(t0, h, n);
        LastNode(next, prev, T(), g.heads, h);
      }
      assert q0[n..] == [] && q0[..n] == q0;
    }

    /** `check_sleeping` */
    method CheckSleeping(now: int)
      requires Valid() && Statuses(T())
      modifies this
      ensures Valid() && View() == old(View()).(t := WakeDue(old(T()), now)) && g.heads == old(g.heads)
    {
      hide Linked, Queued, Wake, Unblocked, Statuses, Later, Due;
      ghost var t0, q0, n := T(), Q(T(), Sleep), 0;
      assert Fixed(Sleep) && Fixed(Ready);
      SleepStart(t0, now);
      LastNode(next, prev, T(), g.heads, Sleep);
      var p := next[H(Sleep)];
      while p != H(Sleep)
        invariant 0 <= n <= |q0| && Valid() && g.heads == old(g.heads)
        invariant View() == old(View()).(t := Wake(t0, Sleep, Later(t0.wake, q0[..n], now) + q0[n..],
                                                   Due(t0.wake, q0[..n], now)))
        invariant p == if n == |q0| then H(Sleep) else P(q0[n])
        invariant s.wake == t0.wake
        decreases |q0| - n
      {
        CheckStep(t0, n, now);
        ghost var i := |Later(t0.wake, q0[..n], now)|;
        NextNode(next, prev, T(), g.heads, Sleep, i);
        var pnext := next[p];
        var c := p.c;
        if s.wake[c] <= now {
          DoUnblock(c, Sleep, i);
        }
        n := n + 1;
        p := pnext;
        WakeTimes(t0, Sleep, Later(t0.wake, q0[..n], now) + q0[n..], Due(t0.wake, q0[..n], now));
      }
      assert q0[..n] == q0 && Later(t0.wake, q0, now) + q0[n..] == Later(t0.wake, q0, now);
    }

    /** `get_next_running` */
    method GetNextRunning(hart: int) returns (found: bool)
      requires Valid() && Inside(T(), hart) && IsHart(hart)
      modifies this
      ensures Valid() && g.heads == old(g.heads)
      ensures Next(old(T()), hart) == (if found then T() else T().(cur := T().cur[hart := IDLE]))
      ensures View() == old(View()).(t := T())
    {
      hide Linked, Queued, Pick, Elsewhere, Harts, Run, AddReady;
      var c := s.cur[hart];
      CurrentOff(T(), hart);
      if IsPcb(c) && s.status[c] == RUNNING {
        AddReadyqueue(c);
      }
      ghost var u := T();
      YieldedInv(old(T()), hart);
      ghost var i;
      found, c, i := ScanReady(hart);
      if found {
        TakeReady(c, hart, i);
      }
    }

    /** The search of `get_next_running`: the first ready process that may run on the hart. */
    method ScanReady(hart: int) returns (found: bool, c: int, ghost i: nat)
      requires Valid() && Statuses(T())
      ensures found == (Pick(T(), Q(T(), Ready), hart) < |Q(T(), Ready)|) && i == Pick(T(), Q(T(), Ready), hart)
      ensures found ==> c == Q(T(), Ready)[Pick(T(), Q(T(), Ready), hart)] && IsPcb(c) && s.status[c] == READY
    {
      hide Linked, Queued, Pick;
      assert Fixed(Ready);
      LastNode(next, prev, T(), g.heads, Ready);
      ghost var q := Q(T(), Ready);
      var p := next[H(Ready)];
      i := 0;
      while p != H(Ready)
        invariant 0 <= i <= |q| && p == if i == |q| then H(Ready) else P(q[i])
        invariant forall j :: 0 <= j < i ==> !Allowed(T(), hart, q[j])
        decreases |q| - i
      {
        NextNode(next, prev, T(), g.heads, Ready, i);
        if hart in s.mask[p.c] {
          PickIs(T(), q, hart, i);
          return true, p.c, i;
        }
        p, i := next[p], i + 1;
      }
      PickIs(T(), q, hart, i);
      return false, IDLE, i;
    }

    /** The taken branch of `get_next_running`. */
    method TakeReady(c: int, hart: int, ghost i: nat)
      requires Valid() && IsHart(hart) && i < |Q(T(), Ready)| && Q(T(), Ready)[i] == c && IsPcb(c)
               && s.status[c] == READY
      modifies this
      ensures Valid() && g.heads == old(g.heads) && View() == old(View()).(t := Run(old(T()), hart, i))
    {
      hide Linked, Queued;
      DequeueQueued(T(), Ready, i);
      ghost var t, t' := Dequeue(T(), Ready, i), Run(T(), hart, i);
      assert Fixed(Ready);
      next, prev := UnlinkNode(next, prev, c, Ready, i, T(), g.heads);
      s := s.(cur := s.cur[hart := c], status := s.status[c := RUNNING], cpu := s.cpu[c := hart]);
      g := g.(q := t.q, at := t.at);
      QueuedSame(t, t');
      LinkedSame(next, prev, t, t', g.heads);
    }

    /** `do_scheduler` */
    method DoScheduler(hart: int, now: int)
      requires Valid() && Inside(T(), hart) && IsHart(hart)
      modifies this
      ensures Valid() && g.heads == old(g.heads) && View() == old(View()).(t := Dispatch(old(T()), hart, now))
    {
      hide Linked, Queued, Inside, Next, WakeDue;
      ghost var t0 := T();
      DueInv(t0, hart, now);
      InsideStatuses(t0, hart);
      CheckSleeping(now);
      var found := GetNextRunning(hart);
      if !found {
        ghost var t := T();
        s := s.(cur := s.cur[hart := IDLE]);
        QueuedSame(t, T());
        LinkedSame(next, prev, t, T(), g.heads);
      }
    }

    /** `do_block` on the current process, which is to go on with `co`. */
    method Park(hart: int, h: Head, co: Cont)
      requires Valid() && Busy(T(), hart) && g.at[s.cur[hart]] == Off && h in g.heads
      modifies this
      ensures Valid() && g.heads == old(g.heads) && View() == Parked(old(View()), hart, h, co)
    {
      hide Linked, Queued, Block;
      var c := s.cur[hart];
      DoBlock(c, h);
      x := x.(cont := x.cont[c := co]);
    }

    // -------------------------------------------------------------- kernel/locking/lock.c

    /** `do_mutex_lock_acquire`, one turn of its loop. */
    method DoMutexLockAcquire(hart: int, now: int, l: int)
      requires Valid() && Sane(View()) && Busy(T(), hart) && 0 <= l < x.nlocks && IsObj(l)
      modifies this
      ensures Valid() && Sane(View()) && View() == AcquireStep(old(View()), Event(hart, now, Acquire(l)), l)
    {
      hide Linked, Good, Inside, Parked, Dispatch;
      ghost var k, e := View(), Event(hart, now, Acquire(l));
      AcquireSane(k, e, l);
      GoodShape(k);
      if !x.locks[l].locked {
        ghost var y := Taken(k, hart, l).y;
        var c := s.cur[hart];
        x := x.(locks := x.locks[l := x.locks[l].(locked := true, owner := x.pid[c])], cont := x.cont[c := Done]);
        g := g.(y := y);
      } else {
        Enter(k.t, hart);
        CurrentOff(k.t, hart);
        LockReason(k, l);
        ParkedGood(k, hart, Lock(l), Acquiring(l));
        assert Fixed(Lock(l));
        Park(hart, Lock(l), Acquiring(l));
        DoScheduler(hart, now);
      }
    }

    /** Freeing a lock: the lines `do_mutex_lock_release` and `release_process_mutex` share. */
    method FreeLock(l: int)
      requires Valid() && Statuses(T()) && IsObj(l)
      modifies this
      ensures Valid() && g.heads == old(g.heads) && View() == Unlocked(old(View()), l)
    {
      hide Linked, Queued, WakeAll, Statuses;
      x := x.(locks := x.locks[l := x.locks[l].(locked := false, owner := 0)]);
      assert Fixed(Lock(l));
      WakeQueue(Lock(l));
    }

    /** `do_mutex_lock_release`, by the process on the hart. */
    method DoMutexLockRelease(hart: int, now: int, l: int)
      requires Valid() && Sane(View()) && Busy(T(), hart) && IsObj(l)
      modifies this
      ensures Valid() && Sane(View()) && View() == ReleaseStep(old(View()), Event(hart, now, Release(l)), l)
    {
      hide Linked, Good, Queued, Unlocked, Statuses, Harts, Elsewhere, Calm;
      ghost var k, c := View(), s.cur[hart];
      ReleaseSane(k, Event(hart, now, Release(l)), l);
      FreeLock(l);
      g := g.(y := g.y.(held := g.y.held[l := g.y.held[l] - {c}]));
    }

    /** `release_process_mutex` */
    method ReleaseProcessMutex(p: int, ghost hart: int)
      requires Valid() && Good(View()) && Inside(T(), hart) && x.nlocks <= OBJECTS
      modifies this
      ensures Valid() && g.heads == old(g.heads) && View() == Released(old(View()), p, 0)
    {
      hide Linked, Queued, Good, Inside, Unlocked;
      var i := 0;
      while i < x.nlocks
        invariant Valid() && g.heads == old(g.heads) && Good(View()) && Inside(T(), hart) && x.nlocks == old(x.nlocks)
        invariant 0 <= i && Released(old(View()), p, 0) == Released(View(), p, i)
        decreases OBJECTS - i
      {
        if x.locks[i].locked && x.locks[i].owner == p {
          ghost var k := View();
          UnlockedGood(k, hart, i);
          UnlockedSync(k, i);
          InsideStatuses(T(), hart);
          FreeLock(i);
        }
        i := i + 1;
      }
    }

    /** `do_condition_wait`, up to its call of the scheduler: the process is queued before the mutex is free. */
    method DoConditionWait(hart: int, now: int, i: int, l: int)
      requires Valid() && Sane(View()) && Busy(T(), hart) && IsObj(i) && IsObj(l) && l < x.nlocks
      modifies this
      ensures Valid() && Sane(View()) && View() == CondWaitStep(old(View()), Event(hart, now, CondWait(i, l)), i, l)
    {
      hide Linked, Good, Inside, Parked, Dispatch, Unlocked;
      ghost var k, e, c := View(), Event(hart, now, CondWait(i, l)), s.cur[hart];
      CondWaitSane(k, e, i, l);
      Enter(k.t, hart);
      CurrentOff(k.t, hart);
      CondReason(k, i, l);
      ParkedGood(k, hart, Cond(i), Acquiring(l));
      assert Fixed(Cond(i));
      Park(hart, Cond(i), Acquiring(l));
      ghost var u := View();
      UnlockedGood(u, hart, l);
      InsideStatuses(T(), hart);
      FreeLock(l);
      LetGoGood(Unlocked(u, l), l, c);
      g := g.(y := g.y.(held := g.y.held[l := g.y.held[l] - {c}]));
      DoScheduler(hart, now);
    }

    /** `do_condition_signal` */
    method DoConditionSignal(i: int)
      requires Valid() && Sane(View()) && IsObj(i)
      modifies this
      ensures Valid() && Sane(View()) && View() == SignalStep(old(View()), i)
    {
      hide Linked, Good, Queued, Wake, Unblocked, Statuses, Harts, Elsewhere, Calm;
      ghost var k := View();
      SignalSane(k, i);
      assert Fixed(Cond(i)) && Fixed(Ready);
      LastNode(next, prev, T(), g.heads, Cond(i));
      if next[H(Cond(i))] != H(Cond(i)) {
        WakeNone(T(), Cond(i));
        WakeStep(T(), Cond(i), 0);
        DoUnblock(next[H(Cond(i))].c, Cond(i), 0);
      }
    }

    /** `do_condition_broadcast` */
    method DoConditionBroadcast(i: int)
      requires Valid() && Sane(View()) && IsObj(i)
      modifies this
      ensures Valid() && Sane(View()) && View() == Woken(old(View()), Cond(i))
    {
      hide Linked, Good, Queued, WakeAll, Statuses, Harts, Elsewhere, Calm;
      WakeSane(View(), i);
      assert Fixed(Cond(i));
      WakeQueue(Cond(i));
    }

    /** `do_barrier_wait` */
    method DoBarrierWait(hart: int, now: int, b: int)
      requires Valid() && Sane(View()) && Busy(T(), hart) && IsObj(b)
      modifies this
      ensures Valid() && Sane(View()) && View() == BarrierStep(old(View()), Event(hart, now, BarrierWait(b)), b)
    {
      hide Linked, Good, Queued, WakeAll, Statuses, Harts, Elsewhere, Dispatch, Block;
      ghost var k, e := View(), Event(hart, now, BarrierWait(b));
      BarrierSane(k, e, b);
      assert Fixed(Bar(b));
      var r := x.bars[b];
      if r.counter + 1 >= r.goal {
        ghost var y := BarFull(k, b).y;
        x := x.(bars := x.bars[b := r.(counter := r.counter + 1)]);
        WakeQueue(Bar(b));
        x := x.(bars := x.bars[b := x.bars[b].(counter := 0)]);
        assert x.bars == k.x.bars[b := r.(counter := 0)];
        g := g.(y := y);
      } else {
        ghost var y := BarJoin(k, hart, b).y;
        Enter(k.t, hart);
        CurrentOff(k.t, hart);
        BarJoinGood(k, hart, b);
        x := x.(bars := x.bars[b := r.(counter := r.counter + 1)]);
        Park(hart, Bar(b), Done);
        g := g.(y := y);
        assert View() == BarJoin(k, hart, b);
        DoScheduler(hart, now);
      }
    }

    /** `do_barrier_destroy` */
    method DoBarrierDestroy(b: int)
      requires Valid() && Sane(View()) && IsObj(b)
      modifies this
      ensures Valid() && Sane(View()) && View() == BarClosed(old(View()), b)
    {
      hide Linked, Good, Queued, WakeAll, Statuses, Harts, Elsewhere, Calm;
      ghost var k := View();
      BarClosedGood(k, IDLE, b);
      assert Fixed(Bar(b));
      ghost var y := BarClosed(k, b).y;
      WakeQueue(Bar(b));
      x := x.(bars := x.bars[b := x.bars[b].(active := false)]);
      g := g.(y := y);
    }

    /** `do_mbox_send`, one turn of its loop. */
    method DoMboxSend(hart: int, now: int, m: int, msg: seq<int>)
      requires Valid() && Sane(View()) && Busy(T(), hart) && IsObj(m)
      modifies this
      ensures Valid() && Sane(View()) && View() == SendStep(old(View()), Event(hart, now, Send(m, msg)), m, msg)
    {
      hide Linked, Good, Queued, WakeAll, Statuses, Harts, Elsewhere, Dispatch, Parked, Calm;
      ghost var k, e := View(), Event(hart, now, Send(m, msg));
      SendSane(k, e, m, msg);
      assert Fixed(Full(m)) && Fixed(Empty(m));
      var r, c := x.boxes[m], s.cur[hart];
      if |r.buf| + |msg| <= ROOM {
        ghost var y := Put(k, hart, m, msg).y;
        x := x.(boxes := x.boxes[m := r.(buf := r.buf + msg)]);
        WakeQueue(Empty(m));
        x := x.(cont := x.cont[c := Done]);
        g := g.(y := y);
      } else {
        Enter(k.t, hart);
        CurrentOff(k.t, hart);
        ParkedGood(k, hart, Full(m), Sending(m, msg));
        Park(hart, Full(m), Sending(m, msg));
        DoScheduler(hart, now);
      }
    }

    /** `do_mbox_recv`, one turn of its loop. */
    method DoMboxRecv(hart: int, now: int, m: int, len: int) returns (msg: seq<int>, done: bool)
      requires Valid() && Sane(View()) && Busy(T(), hart) && IsObj(m) && len >= 0
      modifies this
      ensures Valid() && Sane(View()) && View() == RecvStep(old(View()), Event(hart, now, Recv(m, len)), m, len)
      ensures done == (|old(x.boxes[m].buf)| >= len) && (done ==> msg == old(x.boxes[m].buf)[..len])
    {
      hide Linked, Good, Queued, WakeAll, Statuses, Harts, Elsewhere, Dispatch, Parked, Calm;
      ghost var k, e := View(), Event(hart, now, Recv(m, len));
      RecvSane(k, e, m, len);
      assert Fixed(Full(m)) && Fixed(Empty(m));
      var r, c := x.boxes[m], s.cur[hart];
      msg, done := [], |r.buf| - len >= 0;
      if done {
        ghost var y := Get(k, hart, m, len).y;
        msg := r.buf[..len];
        x := x.(boxes := x.boxes[m := r.(buf := r.buf[len..])]);
        WakeQueue(Full(m));
        x := x.(cont := x.cont[c := Done]);
        g := g.(y := y);
      } else {
        Enter(k.t, hart);
        CurrentOff(k.t, hart);
        ParkedGood(k, hart, Empty(m), Receiving(m, len));
        Park(hart, Empty(m), Receiving(m, len));
        DoScheduler(hart, now);
      }
    }

    // -------------------------------------------------------------- kernel/sched/sched.c

    /** `do_sleep`: asleep until that much later than now. */
    method DoSleep(hart: int, now: int, sleepTime: int)
      requires Valid() && Sane(View()) && Busy(T(), hart)
      modifies this
      ensures Valid() && Sane(View())
      ensures View() == SleepStep(old(View()), Event(hart, now, SleepUntil(sleepTime + now)), sleepTime + now)
    {
      hide Linked, Good, Queued, Statuses, Dispatch, Parked, Eases;
      var time := sleepTime + now;
      ghost var k, e := View(), Event(hart, now, SleepUntil(time));
      SleepSane(k, e, time);
      CurrentOff(k.t, hart);
      s := s.(wake := s.wake[s.cur[hart] := time]);
      QueuedSame(k.t, T());
      LinkedSame(next, prev, k.t, T(), g.heads);
      SameEases(k.t, T());
      EasesGood(k, T());
      Retimed(k.t, T(), hart);
      ParkedGood(View(), hart, Sleep, Done);
      assert Fixed(Sleep);
      Park(hart, Sleep, Done);
      DoScheduler(hart, now);
    }

    /** `pid_to_pcb_id`; -1 if no live process has the pid. */
    method PidToPcbId(pid: int) returns (i: int)
      requires Shape(View())
      ensures i == if FindPid(View(), pid, 0) == N then -1 else FindPid(View(), pid, 0)
    {
      i := 0;
      while i < N
        invariant 0 <= i <= N && FindPid(View(), pid, 0) == FindPid(View(), pid, i)
      {
        if x.pid[i] == pid && s.status[i] != EXITED {
          return;
        }
        i := i + 1;
      }
      return -1;
    }

    /** `do_waitpid` */
    method DoWaitpid(hart: int, now: int, pid: int)
      requires Valid() && Sane(View()) && Busy(T(), hart)
      modifies this
      ensures Valid() && Sane(View())
      ensures View() == WaitStep(old(View()), Event(hart, now, Waitpid(pid)), FindPid(old(View()), pid, 0))
    {
      hide Linked, Good, Queued, Statuses, Harts, Elsewhere, Dispatch, Parked, FindPid;
      ghost var k, e := View(), Event(hart, now, Waitpid(pid));
      WaitSane(k, e, FindPid(k, pid, 0));
      var i := PidToPcbId(pid);
      if i != -1 {
        Enter(k.t, hart);
        CurrentOff(k.t, hart);
        ParkedGood(k, hart, Waiters(i), Done);
        Park(hart, Waiters(i), Done);
        DoScheduler(hart, now);
      }
    }

    /** What `do_exit` and `do_kill` do first: wake the waiters of c and release its locks. */
    method Unburden(c: int, ghost hart: int)
      requires Valid() && Good(View()) && Inside(T(), hart) && IsPcb(c) && s.status[c] != EXITED
      modifies this
      ensures Valid() && g.heads == old(g.heads) && View() == Unburdened(old(View()), c)
    {
      hide Linked, Good, Queued, Inside, Released, WakeAll, Calm;
      ghost var k := View();
      WokenGood(k, hart, Waiters(c));
      InsideStatuses(T(), hart);
      WakeQueue(Waiters(c));
      LocksBound(View());
      ReleaseProcessMutex(x.pid[c], hart);
    }

    /** `do_exit` */
    method DoExit(hart: int, now: int)
      requires Valid() && Good(View()) && Inside(T(), hart) && Busy(T(), hart)
      modifies this
      ensures Valid() && Sane(View()) && View() == ExitStep(old(View()), Event(hart, now, Exit))
    {
      hide Linked, Good, Queued, Unburdened, Dispatch, Grown, Dropped;
      ghost var k, e := View(), Event(hart, now, Exit);
      var c := s.cur[hart];
      ExitSane(k, e);
      UnburdenedGood(k, hart, c);
      Unburden(c, hart);
      CurrentOff(T(), hart);
      DeadGood(View(), hart, c);
      ghost var t, k' := T(), Dead(View(), c);
      s := s.(status := s.status[c := EXITED]);
      g := g.(y := k'.y);
      LinkedSame(next, prev, t, T(), g.heads);
      DoScheduler(hart, now);
    }

    /** The branch of `do_kill` for a process other than the caller: `remove_pcb_queue` takes it off its queue. */
    method KillOther(c: int, ghost hart: int)
      requires Valid() && Good(View()) && Inside(T(), hart) && IsPcb(c) && s.status[c] != EXITED
               && s.status[c] != RUNNING
      modifies this
      ensures Valid() && View() == Killed(old(View()), c)
    {
      hide Linked, Good, Queued, Unburdened, Grown, Position;
      ghost var k := View();
      UnburdenedGood(k, hart, c);
      Unburden(c, hart);
      RemovePcbQueue(c, hart);
    }

    /** `pcb->status = TASK_EXITED; remove_pcb_queue(pcb)` */
    method RemovePcbQueue(c: int, ghost hart: int)
      requires Valid() && Good(View()) && Inside(T(), hart) && IsPcb(c) && s.status[c] != EXITED
               && s.status[c] != RUNNING
      modifies this
      ensures Valid() && View() == Dead(Unqueued(old(View()), c), c)
    {
      hide Linked, Good, Queued, Position;
      ghost var k := View();
      OnQueue(T(), hart, c);
      ghost var h := g.at[c].h;
      ghost var i := Position(Q(T(), h), c);
      QueuedHead(k, hart, c, g.heads);
      DequeueQueued(T(), h, i);
      DequeueLinked(next, prev, T(), g.heads, h, i);
      ghost var k' := Dead(Unqueued(k, c), c);
      s := s.(status := s.status[c := EXITED]);
      if P(c) in next {
        next, prev := UnlinkNode(next, prev, c, h, i, k.t, g.heads);
        g := g.(q := k'.t.q, at := k'.t.at, y := k'.y);
      }
      QueuedSame(Dequeue(k.t, h, i), T());
      LinkedSame(next, prev, Dequeue(k.t, h, i), T(), g.heads);
    }

    /** `do_kill` */
    method DoKill(hart: int, now: int, pid: int)
      requires Valid() && Sane(View()) && Busy(T(), hart)
      requires forall c :: IsPcb(c) && s.status[c] == RUNNING && x.pid[c] == pid ==> c == s.cur[hart]
      modifies this
      ensures Valid() && Sane(View()) && View() == KillStep(old(View()), Event(hart, now, Kill(pid)), pid, 0)
    {
      hide Linked, Good, Queued, Killed, ExitStep, Statuses, Harts, Elsewhere, FindPid;
      ghost var k, e, lo := View(), Event(hart, now, Kill(pid)), 0;
      while true
        invariant Valid() && Sane(View()) && Busy(T(), hart)
        invariant forall c :: IsPcb(c) && s.status[c] == RUNNING && x.pid[c] == pid ==> c == s.cur[hart]
        invariant KillStep(k, e, pid, 0) == KillStep(View(), e, pid, 0)
        invariant 0 <= lo <= N && forall j :: 0 <= j < lo ==> s.status[j] == EXITED || x.pid[j] != pid
        decreases N - lo
      {
        var i := PidToPcbId(pid);
        ghost var u := View();
        if i == -1 {
          KillSkip(u, e, pid, N);
          return;
        }
        KillSkip(u, e, pid, i);
        if i == s.cur[hart] {
          Enter(u.t, hart);
          DoExit(hart, now);
          ExitAny(u, e, Event(hart, now, Exit));
          return;
        }
        KilledGood(u, IDLE, i);
        KilledLoyal(u, IDLE, i, now);
        KillOther(i, IDLE);
        KilledDead(u, i);
        StillNone(u, View(), pid, i);
        lo := i + 1;
        KillSkip(View(), e, pid, lo);
      }
    }

    /** `get_free_pcb`; -1 if the table is full. */
    method GetFreePcb() returns (i: int)
      requires Shape(View())
      ensures i == if FreePcb(View()) == N then -1 else FreePcb(View())
    {
      i := 0;
      while i < N
        invariant 0 <= i <= N && forall j :: 0 <= j < i ==> s.status[j] != EXITED
      {
        if s.status[i] == EXITED {
          return;
        }
        i := i + 1;
      }
      return -1;
    }

    /** The scheduling part of `do_exec`; -1 if no entry is free. */
    method DoExec(mask: set<int>) returns (pid: int)
      requires Valid() && Sane(View())
      modifies this
      ensures Valid() && Sane(View()) && View() == ExecStep(old(View()), mask)
      ensures pid == if forall i :: IsPcb(i) ==> old(s.status)[i] != EXITED then -1 else old(x.lastPid) + 1
    {
      hide Linked, Good, Queued, FreePcb, AddReady;
      ghost var k := View();
      ExecSane(k, mask);
      FreePcbIs(k);
      var i := GetFreePcb();
      if i == -1 {
        return -1;
      }
      NoWaiters(k, IDLE, i);
      ResetSoundExactly(k.t, Waiters(i));
      ResetLinked(next, prev, T(), g.heads, Waiters(i));
      pid := x.lastPid + 1;
      x := x.(lastPid := pid, pid := x.pid[i := pid], tid := x.tid[i := 0], cont := x.cont[i := Done]);
      next, prev := next[H(Waiters(i)) := H(Waiters(i))], prev[H(Waiters(i)) := H(Waiters(i))];
      s := s.(mask := s.mask[i := mask]);
      g := g.(q := g.q[Waiters(i) := []], heads := g.heads + {Waiters(i)});
      QueuedSame(Reset(k.t, Waiters(i)), T());
      LinkedSame(next, prev, Reset(k.t, Waiters(i)), T(), g.heads);
      DeadOff(k.t, i);
      AddReadyqueue(i);
    }
  }

  lemma DeadOff(t: Tasks, c: int)
    requires Statuses(t) && IsPcb(c) && t.status[c] == EXITED
    ensures t.at[c] == Off
  {
  }

  function AllHeads(): set<Head> {
    {Ready, Sleep} + (set i: int | 0 <= i < OBJECTS :: Lock(i)) + (set i: int | 0 <= i < OBJECTS :: Bar(i))
    + (set i: int | 0 <= i < OBJECTS :: Cond(i)) + (set i: int | 0 <= i < OBJECTS :: Full(i))
    + (set i: int | 0 <= i < OBJECTS :: Empty(i))
  }

  lemma AllHeadsIs()
    ensures forall h :: Fixed(h) <==> h in AllHeads()
  {
  }

  lemma SaneParts(k: K)
    requires Sane(k)
    ensures Shape(k) && Queued(k.t)
  {
  }

  lemma BootLinked(masks: seq<set<int>>, wake: seq<int>, pid: seq<int>, tid: seq<int>, heads: set<Head>, next: Links,
                   prev: Links)
    requires |masks| == |wake| == |pid| == |tid| == N && next == prev == (map h | h in heads :: H(h) := H(h))
    ensures var k := Boots(masks, wake, pid, tid, heads);
            && Sized(k.t) && Linked(next, prev, k.t, heads) && (forall h :: h in heads ==> h in k.t.q)
            && forall d :: IsPcb(d) ==> k.t.status[d] == EXITED
  {
    var k := Boots(masks, wake, pid, tid, heads);
    forall h | h in heads ensures Ring(next, prev, H(h), Nodes(Q(k.t, h))) {
      EmptyRing(next, prev, h);
    }
  }

  /** A queue somebody is on has an initialised head. */
  lemma QueuedHead(k: K, hart: int, c: int, heads: set<Head>)
    requires Good(k) && Inside(k.t, hart) && IsPcb(c) && k.t.at[c].On?
    requires (forall h :: Fixed(h) ==> h in heads)
             && (forall d :: IsPcb(d) && k.t.status[d] != EXITED ==> Waiters(d) in heads)
    ensures k.t.at[c].h in heads
  {
    assert Reason(k.t.status, k.x, k.t.at[c].h, k.x.cont[c]);
  }

  /** Entries that do not match are passed over. */
  lemma {:induction false} KillSkip(k: K, e: Event, p: int, i: nat)
    requires Shape(k) && Busy(k.t, e.hart) && i <= N && forall j :: 0 <= j < i ==>
               k.t.status[j] == EXITED || k.x.pid[j] != p
    ensures KillStep(k, e, p, 0) == KillStep(k, e, p, i)
  {
    hide Killed, ExitStep, Shape, Busy;
    if i > 0 {
      KillSkip(k, e, p, i - 1);
    }
  }

  lemma ExitAny(k: K, e: Event, e': Event)
    requires Shape(k) && Busy(k.t, e.hart) && e'.hart == e.hart && e'.now == e.now
    ensures ExitStep(k, e) == ExitStep(k, e')
  {
  }

  lemma KilledDead(k: K, c: int)
    requires Shape(k) && IsPcb(c) && Shape(Unqueued(Unburdened(k, c), c))
    ensures Killed(k, c).t.status[c] == EXITED
  {
  }

  lemma StillNone(k: K, k': K, p: int, i: int)
    requires Persists(k, k') && k'.x.pid == k.x.pid && 0 <= i < N && k'.t.status[i] == EXITED
    requires forall j :: 0 <= j < i ==> k.t.status[j] == EXITED || k.x.pid[j] != p
    ensures forall j :: 0 <= j <= i ==> k'.t.status[j] == EXITED || k'.x.pid[j] != p
  {
  }

  lemma LocksBound(k: K)
    requires Good(k)
    ensures k.x.nlocks <= OBJECTS
  {
  }

  lemma Retimed(t: Tasks, t': Tasks, hart: int)
    requires Stable(t) && Queued(t') && t' == t.(wake := t'.wake) && Sized(t')
    ensures Inside(t', hart)
  {
    hide Queued;
  }

  lemma CondReason(k: K, i: int, l: int)
    requires Shape(k) && 0 <= l < k.x.nlocks && IsObj(i)
    ensures Reason(k.t.status, k.x, Cond(i), Acquiring(l)) && ContOk(k.x, Acquiring(l))
  {
  }


  lemma UnlockedSync(k: K, l: int)
    requires Shape(k) && IsObj(l)
    ensures Unlocked(k, l).x.nlocks == k.x.nlocks
  {
  }

  lemma LockReason(k: K, l: int)
    requires Shape(k) && 0 <= l < k.x.nlocks && IsObj(l) && k.x.locks[l].locked
    ensures Reason(k.t.status, k.x, Lock(l), Acquiring(l)) && ContOk(k.x, Acquiring(l))
  {
  }

  lemma InsideStatuses(t: Tasks, hart: int)
    requires Inside(t, hart)
    ensures Statuses(t) && Sized(t)
  {
  }

  lemma LinkedSame(next: Links, prev: Links, t: Tasks, t': Tasks, heads: set<Head>)
    requires Sized(t) && Sized(t') && t'.q == t.q && t'.at == t.at && Linked(next, prev, t, heads)
    ensures Linked(next, prev, t', heads)
  {
    assert forall h :: Q(t', h) == Q(t, h);
  }

  /** A running process is on no queue; whoever is on one is alive. */
  lemma CurrentOff(t: Tasks, hart: int)
    requires Inside(t, hart) && IsHart(hart)
    ensures IsPcb(t.cur[hart]) && t.status[t.cur[hart]] == RUNNING ==> t.at[t.cur[hart]] == Off
  {
  }

  /** From member i of a queue to the next one. */
  lemma NextNode(next: Links, prev: Links, t: Tasks, heads: set<Head>, h: Head, i: nat)
    requires Queued(t) && Linked(next, prev, t, heads) && h in heads && i < |Q(t, h)|
    ensures var c := Q(t, h)[i];
            && IsPcb(c) && t.at[c] == On(h)
            && P(c) in next && next[P(c)] == if i + 1 == |Q(t, h)| then H(h) else P(Q(t, h)[i + 1])
  {
    OfQueue(t, h, i);
    var ns := Nodes(Q(t, h));
    assert ns[i] == P(Q(t, h)[i]) && (i + 1 < |ns| ==> ns[i + 1] == P(Q(t, h)[i + 1]));
    Neighbours(next, prev, H(h), ns, i);
  }

  lemma {:induction false} PickIs(t: Tasks, s: seq<int>, hart: int, i: nat)
    requires i <= |s| && (forall j :: 0 <= j < i ==> !Allowed(t, hart, s[j])) && (i < |s| ==> Allowed(t, hart, s[i]))
    ensures Pick(t, s, hart) == i
  {
  }

  lemma SleepStart(t: Tasks, now: int)
    requires Sized(t) && Sleep in t.q && Ready in t.q
    ensures var q := Q(t, Sleep); Wake(t, Sleep, Later(t.wake, q[..0], now) + q[0..], Due(t.wake, q[..0], now)) == t
  {
    var q := Q(t, Sleep);
    assert Later(t.wake, q[..0], now) + q[0..] == q[0..] && Due(t.wake, q[..0], now) == q[..0];
    WakeNone(t, Sleep);
  }

  lemma WakeNone(t: Tasks, h: Head)
    requires Sized(t) && h in t.q && Ready in t.q && h != Ready
    ensures Wake(t, h, Q(t, h)[0..], Q(t, h)[..0]) == t
  {
    var u := Wake(t, h, Q(t, h)[0..], Q(t, h)[..0]);
    assert Q(t, h)[0..] == Q(t, h) && Q(t, Ready) + Q(t, h)[..0] == Q(t, Ready);
    assert u.q == t.q && u.at == t.at && u.status == t.status;
  }

  lemma WakeHas(t: Tasks, h: Head, n: nat)
    requires Sized(t) && h != Ready && n <= |Q(t, h)|
    ensures Q(Wake(t, h, Q(t, h)[n..], Q(t, h)[..n]), h) == Q(t, h)[n..]
  {
  }

  /** Unblocking c, between those who stay before it and those still to be looked at. */
  lemma WakeOne(t: Tasks, h: Head, before: seq<int>, c: int, rest: seq<int>, go: seq<int>)
    requires Sized(t) && h != Ready && IsPcb(c)
    ensures var u := Wake(t, h, before + [c] + rest, go);
            && Q(u, h) == before + [c] + rest && Q(u, h)[|before|] == c
            && Unblocked(u, h, |before|) == Wake(t, h, before + rest, go + [c])
  {
    hide Wake;
    WakeRest(t, h, before + [c] + rest, go);
    WakeRest(t, h, before + rest, go + [c]);
    assert Without(before + [c] + rest, |before|) == before + rest;
    WakeOneQ(t, h, before, c, rest, go);
    WakeOneAt(t, h, before, c, rest, go);
  }

  lemma WakeRest(t: Tasks, h: Head, keep: seq<int>, go: seq<int>)
    requires Sized(t) && h != Ready
    ensures var u := Wake(t, h, keep, go);
            Sized(u) && u.cur == t.cur && u.cpu == t.cpu && u.wake == t.wake && u.mask == t.mask && Q(u, h) == keep
              && Q(u, Ready) == Q(t, Ready) + go
  {
  }

  lemma WakeOneQ(t: Tasks, h: Head, before: seq<int>, c: int, rest: seq<int>, go: seq<int>)
    requires Sized(t) && h != Ready
    ensures var u, w := Wake(t, h, before + [c] + rest, go), Wake(t, h, before + rest, go + [c]);
            u.q[h := before + rest][Ready := Q(t, Ready) + go + [c]] == w.q
  {
    assert Q(t, Ready) + go + [c] == Q(t, Ready) + (go + [c]);
  }

  lemma WakeOneAt(t: Tasks, h: Head, before: seq<int>, c: int, rest: seq<int>, go: seq<int>)
    requires Sized(t) && h != Ready && IsPcb(c)
    ensures var u, w := Wake(t, h, before + [c] + rest, go), Wake(t, h, before + rest, go + [c]);
            u.at[c := Off][c := On(Ready)] == w.at && u.status[c := READY] == w.status
  {
    hide Q;
  }

  lemma WakeStep(t: Tasks, h: Head, n: nat)
    requires Queued(t) && Statuses(t) && h != Ready && n < |Q(t, h)|
    ensures var q, u := Q(t, h), Wake(t, h, Q(t, h)[n..], Q(t, h)[..n]);
            && Q(u, h) == q[n..] && IsPcb(q[n]) && u.status[q[n]] != EXITED
            && Unblocked(u, h, 0) == Wake(t, h, q[n + 1..], q[..n + 1])
  {
    var q := Q(t, h);
    OfQueue(t, h, n);
    assert q[..n + 1] == q[..n] + [q[n]] && [] + [q[n]] + q[n + 1..] == q[n..] && [] + q[n + 1..] == q[n + 1..];
    WakeOne(t, h, [], q[n], q[n + 1..], q[..n]);
  }

  /** The same for the loop of `check_sleeping`. */
  lemma CheckStep(t: Tasks, n: nat, now: int)
    requires Queued(t) && Statuses(t) && n < |Q(t, Sleep)|
    ensures var q := Q(t, Sleep);
            var before, go := Later(t.wake, q[..n], now), Due(t.wake, q[..n], now);
            var u := Wake(t, Sleep, before + q[n..], go);
            var w := Wake(t, Sleep, Later(t.wake, q[..n + 1], now) + q[n + 1..], Due(t.wake, q[..n + 1], now));
            && IsPcb(q[n]) && u.status[q[n]] != EXITED
            && Q(u, Sleep) == before + q[n..] && |before| < |Q(u, Sleep)| && Q(u, Sleep)[|before|] == q[n]
            && if t.wake[q[n]] <= now then Unblocked(u, Sleep, |before|) == w
               && |Later(t.wake, q[..n + 1], now)| == |before|
               else u == w && |Later(t.wake, q[..n + 1], now)| == |before| + 1
  {
    hide Wake, Unblocked, Queued, Statuses;
    QueuedSized(t);
    var q := Q(t, Sleep);
    SleeperAt(t, n);
    var before, go := Later(t.wake, q[..n], now), Due(t.wake, q[..n], now);
    DueAppend(t.wake, q[..n], q[n], now);
    assert q[..n + 1] == q[..n] + [q[n]];
    assert before + [q[n]] + q[n + 1..] == before + q[n..];
    if t.wake[q[n]] <= now {
      assert Later(t.wake, q[..n + 1], now) == before;
    } else {
      assert Later(t.wake, q[..n + 1], now) + q[n + 1..] == before + q[n..] && Due(t.wake, q[..n + 1], now) == go;
    }
    WakeOne(t, Sleep, before, q[n], q[n + 1..], go);
    WakeKeepsLife(t, Sleep, before + q[n..], go, q[n]);
  }

  lemma SleeperAt(t: Tasks, n: nat)
    requires Queued(t) && Statuses(t) && n < |Q(t, Sleep)|
    ensures IsPcb(Q(t, Sleep)[n]) && t.status[Q(t, Sleep)[n]] == BLOCKED
  {
    OfQueue(t, Sleep, n);
  }

  lemma WakeTimes(t: Tasks, h: Head, keep: seq<int>, go: seq<int>)
    requires Sized(t)
    ensures Wake(t, h, keep, go).wake == t.wake
  {
  }

  lemma WakeKeepsLife(t: Tasks, h: Head, keep: seq<int>, go: seq<int>, c: int)
    requires Sized(t) && IsPcb(c) && t.status[c] != EXITED
    ensures Sized(Wake(t, h, keep, go)) && Wake(t, h, keep, go).status[c] != EXITED
            && Wake(t, h, keep, go).wake == t.wake
  {
  }

  lemma {:induction false} DueAppend(wake: seq<int>, s: seq<int>, c: int, now: int)
    requires 0 <= c < |wake|
    ensures Due(wake, s + [c], now) == Due(wake, s, now) + if wake[c] <= now then [c] else []
    ensures Later(wake, s + [c], now) == Later(wake, s, now) + if wake[c] <= now then [] else [c]
  {
    if s == [] {
      assert s + [c] == [c] && [c][1..] == [];
      assert Due(wake, [c], now) == if wake[c] <= now then [c] else [];
    } else {
      assert (s + [c])[0] == s[0] && (s + [c])[1..] == s[1..] + [c];
      DueAppend(wake, s[1..], c, now);
    }
  }

  ghost function Unblocked(t: Tasks, h: Head, i: nat): Tasks
    requires Sized(t) && i < |Q(t, h)| && IsPcb(Q(t, h)[i])
  {
    AddReady(Dequeue(t, h, i), Q(t, h)[i])
  }
}
