/** The scheduler: process states, the intrusive queues they wait on, and dispatching. */
module Sched {
  import opened Rings

  const N: int := 16                      // NUM_MAX_TASK
  const HARTS: int := 2
  const IDLE: int := -1                   // a hart running its pid-0 loop

  datatype Status = BLOCKED | RUNNING | READY | EXITED

  /** The heads of the circular queues. */
  datatype Head =
    | Ready | Sleep | Waiters(pcb: int)
    | Lock(i: int) | Bar(i: int) | Cond(i: int) | Full(i: int) | Empty(i: int)

  datatype Where = Off | On(h: Head)

  /** The scheduling part of the process table, with each queue as a sequence and each process's place. */
  datatype Tasks = Tasks(status: seq<Status>, cur: seq<int>, cpu: seq<int>, wake: seq<int>, mask: seq<set<int>>,
                         q: map<Head, seq<int>>, at: seq<Where>)

  function Q(t: Tasks, h: Head): seq<int> {
    if h in t.q then t.q[h] else []
  }

  predicate Sized(t: Tasks) {
    |t.status| == |t.cpu| == |t.wake| == |t.mask| == |t.at| == N && |t.cur| == HARTS
  }

  predicate IsPcb(c: int) {
    0 <= c < N
  }

  /** Each process is on the queue it thinks it is on, once, and on no other. */
  ghost predicate Queued(t: Tasks) {
    && Sized(t)
    && (forall c :: IsPcb(c) && t.at[c].On? ==> c in Q(t, t.at[c].h))
    && (forall h, c :: c in Q(t, h) ==> IsPcb(c) && t.at[c] == On(h))
    && (forall h :: Distinct(Q(t, h)))
  }

  /** READY on the ready queue, BLOCKED on a wait queue, RUNNING and EXITED on none. */
  predicate Matches(s: Status, w: Where) {
    match w
    case Off => s == RUNNING || s == EXITED
    case On(h) => if h == Ready then s == READY else s == BLOCKED
  }

  ghost predicate Statuses(t: Tasks) {
    Sized(t) && forall c :: IsPcb(c) ==> Matches(t.status[c], t.at[c])
  }

  /** A running process is the current one of exactly its own hart. */
  ghost predicate Harts(t: Tasks) {
    && Sized(t)
    && (forall c :: IsPcb(c) && t.status[c] == RUNNING ==> 0 <= t.cpu[c] < HARTS && t.cur[t.cpu[c]] == c)
    && (forall h :: 0 <= h < HARTS ==> t.cur[h] == IDLE || IsPcb(t.cur[h]))
    && (forall h :: 0 <= h < HARTS && t.cur[h] != IDLE && t.status[t.cur[h]] == RUNNING ==> t.cpu[t.cur[h]] == h)
  }

  /** What holds at every moment. */
  ghost predicate Inv(t: Tasks) {
    Queued(t) && Statuses(t) && Harts(t)
  }

  /** The harts other than `hart` are running what they point at. */
  ghost predicate Elsewhere(t: Tasks, hart: int) {
    Sized(t) && forall h :: 0 <= h < HARTS && h != hart && t.cur[h] != IDLE ==>
      IsPcb(t.cur[h]) && t.status[t.cur[h]] == RUNNING
  }

  /** What holds while `hart` is inside the kernel; the whole-kernel lock keeps the others out. */
  ghost predicate Inside(t: Tasks, hart: int) {
    Inv(t) && Elsewhere(t, hart)
  }

  /** What holds while no hart is inside the kernel. */
  ghost predicate Stable(t: Tasks) {
    Inside(t, IDLE)
  }

  predicate IsHart(hart: int) {
    0 <= hart < HARTS
  }

  /** `hart` is running a process. */
  predicate Busy(t: Tasks, hart: int) {
    Sized(t) && IsHart(hart) && IsPcb(t.cur[hart]) && t.status[t.cur[hart]] == RUNNING
  }

  // ---------------------------------------------------------------- queue operations

  /** Linking c before the head of h. */
  function Enqueue(t: Tasks, c: int, h: Head, s: Status): Tasks
    requires Sized(t) && IsPcb(c)
  {
    t.(q := t.q[h := Q(t, h) + [c]], at := t.at[c := On(h)], status := t.status[c := s])
  }

  /** `do_block` and `add_readyqueue` */
  function Block(t: Tasks, c: int, h: Head): Tasks
    requires Sized(t) && IsPcb(c)
  {
    Enqueue(t, c, h, BLOCKED)
  }

  function AddReady(t: Tasks, c: int): Tasks
    requires Sized(t) && IsPcb(c)
  {
    Enqueue(t, c, Ready, READY)
  }

  /** Unlinking the i-th member of h. */
  function Dequeue(t: Tasks, h: Head, i: nat): Tasks
    requires Sized(t) && i < |Q(t, h)| && IsPcb(Q(t, h)[i])
  {
    t.(q := t.q[h := Without(Q(t, h), i)], at := t.at[Q(t, h)[i] := Off])
  }

  /** The members `go` of h move to the ready queue in order; `keep` stay. */
  function Wake(t: Tasks, h: Head, keep: seq<int>, go: seq<int>): Tasks
    requires Sized(t)
  {
    t.(q := t.q[Ready := Q(t, Ready) + go][h := keep],
       at := seq(N, c requires 0 <= c < N => if c in go then On(Ready) else t.at[c]),
       status := seq(N, c requires 0 <= c < N => if c in go then READY else t.status[c]))
  }

  lemma EnqueueQueued(t: Tasks, c: int, h: Head, s: Status)
    requires Queued(t) && IsPcb(c) && t.at[c] == Off
    ensures Queued(Enqueue(t, c, h, s))
  {
    var t' := Enqueue(t, c, h, s);
    assert forall g :: g != h ==> Q(t', g) == Q(t, g);
    assert Q(t', h) == Q(t, h) + [c];
    forall g, d | d in Q(t', g) ensures IsPcb(d) && t'.at[d] == On(g) {
      assert d in Q(t, g) || (d == c && g == h);
    }
    assert c !in Q(t, h);
  }

  lemma DequeueQueued(t: Tasks, h: Head, i: nat)
    requires Queued(t) && i < |Q(t, h)|
    ensures Q(t, h)[i] in Q(t, h) && IsPcb(Q(t, h)[i]) && t.at[Q(t, h)[i]] == On(h)
    ensures Queued(Dequeue(t, h, i))
  {
    hide Without, Distinct;
    var t' := Dequeue(t, h, i);
    DistinctWithout(Q(t, h), i);
    assert Q(t', h) == Without(Q(t, h), i);
    assert forall g :: g != h ==> Q(t', g) == Q(t, g);
    forall g, c | c in Q(t', g) ensures IsPcb(c) && t'.at[c] == On(g) {
      assert c in Q(t, g);
    }
    forall c | IsPcb(c) && t'.at[c].On? ensures c in Q(t', t'.at[c].h) {
      assert c in Q(t, t.at[c].h);
    }
  }

  /** `keep` and `go` split queue h. */
  ghost predicate Splits(q: seq<int>, keep: seq<int>, go: seq<int>) {
    && Distinct(keep) && Distinct(go)
    && (forall c :: c in q <==> c in keep || c in go)
    && (forall c :: c in keep ==> c !in go)
  }

  lemma WakeQueued(t: Tasks, h: Head, keep: seq<int>, go: seq<int>)
    requires Queued(t) && h != Ready && Splits(Q(t, h), keep, go)
    ensures Queued(Wake(t, h, keep, go))
  {
    var t' := Wake(t, h, keep, go);
    assert forall g :: g != h && g != Ready ==> Q(t', g) == Q(t, g);
    assert Q(t', h) == keep && Q(t', Ready) == Q(t, Ready) + go;
    forall c | c in go ensures c in Q(t, h) && IsPcb(c) && t.at[c] == On(h) && c !in Q(t, Ready) {
    }
    forall g, c | c in Q(t', g) ensures IsPcb(c) && t'.at[c] == On(g) {
      assert c in Q(t, g) || c in go;
    }
    DistinctConcat(Q(t, Ready), go);
  }

  lemma DistinctConcat(a: seq<int>, b: seq<int>)
    requires Distinct(a) && Distinct(b) && forall x :: x in a ==> x !in b
    ensures Distinct(a + b)
  {
    var s := a + b;
    forall i, j | 0 <= i < j < |s| ensures s[i] != s[j] {
      if i < |a| <= j {
        assert s[i] in a && s[j] in b;
      }
    }
  }

  // ---------------------------------------------------------------- state changes that keep the invariant

  lemma QueuedSized(t: Tasks)
    requires Queued(t)
    ensures Sized(t)
  {
  }

  /** A process is on a queue exactly if it thinks so. */
  lemma OnlyPlace(t: Tasks, c: int, h: Head)
    requires Queued(t)
    ensures c in Q(t, h) <==> IsPcb(c) && t.at[c] == On(h)
  {
  }

  /** Only the queues and the places matter to `Queued`. */
  lemma QueuedSame(t: Tasks, t': Tasks)
    requires Queued(t) && Sized(t') && t'.q == t.q && t'.at == t.at
    ensures Queued(t')
  {
    assert forall h :: Q(t', h) == Q(t, h);
  }

  lemma MembersAt(t: Tasks, h: Head, s: seq<int>)
    requires Queued(t) && forall c :: c in s ==> c in Q(t, h)
    ensures forall c :: c in s ==> IsPcb(c) && t.at[c] == On(h)
  {
  }

  /** Blocking the current process of a hart: the hart keeps pointing at it until it is switched away. */
  lemma BlockInv(t: Tasks, hart: int, h: Head)
    requires Inside(t, hart) && h != Ready && Busy(t, hart)
    ensures Inside(Block(t, t.cur[hart], h), hart)
  {
    hide Queued;
    QueuedSized(t);
    assert t.at[t.cur[hart]] == Off;
    EnqueueQueued(t, t.cur[hart], h, BLOCKED);
  }

  lemma WakeInv(t: Tasks, hart: int, h: Head, keep: seq<int>, go: seq<int>)
    requires Inside(t, hart) && h != Ready && Splits(Q(t, h), keep, go)
    ensures Inside(Wake(t, h, keep, go), hart)
  {
    hide Queued, Distinct;
    WakeQueued(t, h, keep, go);
    QueuedSized(t);
    MembersAt(t, h, go);
    forall c | IsPcb(c) ensures Matches(t.status[c], t.at[c]) && (c in go ==> t.status[c] == BLOCKED) {
    }
  }

  /** `do_unblock` on every member of a queue. */
  function WakeAll(t: Tasks, h: Head): Tasks
    requires Sized(t)
  {
    Wake(t, h, [], Q(t, h))
  }

  lemma WakeAllInv(t: Tasks, hart: int, h: Head)
    requires Inside(t, hart) && h != Ready
    ensures Inside(WakeAll(t, h), hart)
  {
    WakeInv(t, hart, h, [], Q(t, h));
  }

  /** A process becomes EXITED: it is off every queue from then on. */
  function Exited(t: Tasks, c: int): Tasks
    requires Sized(t) && IsPcb(c)
  {
    t.(status := t.status[c := EXITED])
  }

  /** The current process of `hart`, or one that no hart runs. */
  lemma ExitedInv(t: Tasks, hart: int, c: int)
    requires Inside(t, hart) && IsPcb(c) && t.at[c] == Off && (t.status[c] == RUNNING ==> t.cpu[c] == hart)
    ensures Inside(Exited(t, c), hart)
  {
    hide Queued;
    QueuedSized(t);
    QueuedSame(t, Exited(t, c));
  }

  /** Where c stands in a queue. */
  function Position(s: seq<int>, c: int): (i: nat)
    requires c in s
    ensures i < |s| && s[i] == c
  {
    if s[0] == c then 0 else 1 + Position(s[1..], c)
  }

  /** `remove_pcb_queue`, for a process at position i of its queue. */
  lemma RemoveInv(t: Tasks, hart: int, h: Head, i: nat)
    requires Inside(t, hart) && i < |Q(t, h)|
    ensures IsPcb(Q(t, h)[i]) && t.status[Q(t, h)[i]] != RUNNING && Inside(Exited(Dequeue(t, h, i), Q(t, h)[i]), hart)
  {
    hide Queued, Q, Without;
    QueuedSized(t);
    DequeueQueued(t, h, i);
    QueuedSame(Dequeue(t, h, i), Exited(Dequeue(t, h, i), Q(t, h)[i]));
  }

  /** A queue head is pointed at itself, whatever hangs on it. */
  function Reset(t: Tasks, h: Head): Tasks {
    t.(q := t.q[h := []])
  }

  /** That is sound exactly when nobody is on the queue; otherwise its members sleep for ever. */
  lemma ResetSoundExactly(t: Tasks, h: Head)
    requires Queued(t)
    ensures Queued(Reset(t, h)) <==> Q(t, h) == []
  {
    var u := Reset(t, h);
    assert forall g :: g != h ==> Q(u, g) == Q(t, g);
    assert Q(u, h) == [];
    if Q(t, h) != [] {
      var c := Q(t, h)[0];
      assert c in Q(t, h) && IsPcb(c) && u.at[c] == On(h) && c !in Q(u, u.at[c].h);
    }
  }

  lemma ResetInv(t: Tasks, hart: int, h: Head)
    requires Inside(t, hart) && Q(t, h) == []
    ensures Inside(Reset(t, h), hart) && forall g :: Q(Reset(t, h), g) == Q(t, g)
  {
    hide Queued;
    ResetSoundExactly(t, h);
  }

  /** A free entry of the process table is filled and made ready. */
  function Spawned(t: Tasks, c: int, mask: set<int>): Tasks
    requires Sized(t) && IsPcb(c)
  {
    AddReady(Reset(t, Waiters(c)).(mask := t.mask[c := mask]), c)
  }

  lemma SpawnedInv(t: Tasks, hart: int, c: int, mask: set<int>)
    requires Inside(t, hart) && IsPcb(c) && t.status[c] == EXITED && Q(t, Waiters(c)) == []
    ensures Inside(Spawned(t, c, mask), hart)
  {
    hide Queued;
    QueuedSized(t);
    ResetSoundExactly(t, Waiters(c));
    var u := Reset(t, Waiters(c)).(mask := t.mask[c := mask]);
    QueuedSame(Reset(t, Waiters(c)), u);
    assert t.at[c] == Off;
    EnqueueQueued(u, c, Ready, READY);
  }

  // ---------------------------------------------------------------- timers

  function Due(wake: seq<int>, s: seq<int>, now: int): seq<int> {
    if s == [] then [] else
    if 0 <= s[0] < |wake| && wake[s[0]] <= now then [s[0]] + Due(wake, s[1..], now) else Due(wake, s[1..], now)
  }

  function Later(wake: seq<int>, s: seq<int>, now: int): seq<int> {
    if s == [] then [] else
    if 0 <= s[0] < |wake| && wake[s[0]] <= now then Later(wake, s[1..], now) else [s[0]] + Later(wake, s[1..], now)
  }

  /** `check_sleeping` */
  function WakeDue(t: Tasks, now: int): Tasks
    requires Sized(t)
  {
    Wake(t, Sleep, Later(t.wake, Q(t, Sleep), now), Due(t.wake, Q(t, Sleep), now))
  }

  lemma {:induction false} DueSplits(wake: seq<int>, s: seq<int>, now: int)
    requires Distinct(s)
    ensures Splits(s, Later(wake, s, now), Due(wake, s, now))
    ensures forall c :: c in Due(wake, s, now) <==> c in s && 0 <= c < |wake| && wake[c] <= now
  {
    if s != [] {
      assert s[0] !in s[1..];
      DueSplits(wake, s[1..], now);
      assert s == [s[0]] + s[1..];
    }
  }

  // ---------------------------------------------------------------- dispatching

  predicate Allowed(t: Tasks, hart: int, c: int) {
    0 <= c < |t.mask| && hart in t.mask[c]
  }

  /** The position of the first process of s that may run on the hart, or |s|. */
  function Pick(t: Tasks, s: seq<int>, hart: int): (i: nat)
    ensures i <= |s| && (forall j :: 0 <= j < i ==> !Allowed(t, hart, s[j])) && (i < |s| ==> Allowed(t, hart, s[i]))
  {
    if s == [] || Allowed(t, hart, s[0]) then 0 else 1 + Pick(t, s[1..], hart)
  }

  /** The current process goes to the tail of the ready queue if it is still running. */
  function Yielded(t: Tasks, hart: int): Tasks
    requires Sized(t) && 0 <= hart < HARTS
  {
    var c := t.cur[hart];
    if IsPcb(c) && t.status[c] == RUNNING then AddReady(t, c) else t
  }

  function Run(t: Tasks, hart: int, i: nat): Tasks
    requires Sized(t) && 0 <= hart < HARTS && i < |Q(t, Ready)| && IsPcb(Q(t, Ready)[i])
  {
    var c := Q(t, Ready)[i];
    Dequeue(t, Ready, i).(status := t.status[c := RUNNING], cpu := t.cpu[c := hart], cur := t.cur[hart := c])
  }

  /** `get_next_running`, and the idle loop if it finds nothing. */
  function Next(t: Tasks, hart: int): Tasks
    requires Sized(t) && 0 <= hart < HARTS
  {
    var u := Yielded(t, hart);
    var i := Pick(u, Q(u, Ready), hart);
    if i < |Q(u, Ready)| && IsPcb(Q(u, Ready)[i]) then Run(u, hart, i) else u.(cur := u.cur[hart := IDLE])
  }

  /** `do_scheduler` at time `now`. */
  function Dispatch(t: Tasks, hart: int, now: int): Tasks
    requires Sized(t) && 0 <= hart < HARTS
  {
    Next(WakeDue(t, now), hart)
  }

  lemma DueInv(t: Tasks, hart: int, now: int)
    requires Inside(t, hart)
    ensures Inside(WakeDue(t, now), hart)
  {
    hide Wake;
    DueSplits(t.wake, Q(t, Sleep), now);
    WakeInv(t, hart, Sleep, Later(t.wake, Q(t, Sleep), now), Due(t.wake, Q(t, Sleep), now));
  }

  /** Afterwards no process claims the hart. */
  lemma YieldedInv(t: Tasks, hart: int)
    requires Inside(t, hart) && IsHart(hart)
    ensures Inside(Yielded(t, hart), hart)
    ensures forall c :: IsPcb(c) && Yielded(t, hart).status[c] == RUNNING ==> Yielded(t, hart).cpu[c] != hart
  {
    hide Queued;
    QueuedSized(t);
    var c := t.cur[hart];
    if IsPcb(c) && t.status[c] == RUNNING {
      assert t.at[c] == Off;
      EnqueueQueued(t, c, Ready, READY);
    }
  }

  lemma RunInv(t: Tasks, hart: int, i: nat)
    requires Inside(t, hart) && IsHart(hart) && i < |Q(t, Ready)|
    requires forall c :: IsPcb(c) && t.status[c] == RUNNING ==> t.cpu[c] != hart
    ensures IsPcb(Q(t, Ready)[i]) && Stable(Run(t, hart, i))
  {
    hide Queued, Q, Without;
    QueuedSized(t);
    DequeueQueued(t, Ready, i);
    QueuedSame(Dequeue(t, Ready, i), Run(t, hart, i));
  }

  lemma NextInv(t: Tasks, hart: int)
    requires Inside(t, hart) && IsHart(hart)
    ensures Stable(Next(t, hart))
  {
    hide Queued, Pick, Yielded, Run;
    var u := Yielded(t, hart);
    YieldedInv(t, hart);
    var i := Pick(u, Q(u, Ready), hart);
    if i < |Q(u, Ready)| {
      RunInv(u, hart, i);
    } else {
      QueuedSame(u, u.(cur := u.cur[hart := IDLE]));
    }
  }

  lemma DueSized(t: Tasks, now: int)
    requires Sized(t)
    ensures Sized(WakeDue(t, now))
  {
  }

  lemma DispatchInv(t: Tasks, hart: int, now: int)
    requires Inside(t, hart) && IsHart(hart)
    ensures Stable(Dispatch(t, hart, now))
  {
    hide WakeDue, Stable, Next;
    DueSized(t, now);
    DueInv(t, hart, now);
    NextInv(WakeDue(t, now), hart);
  }

  // ---------------------------------------------------------------- bounded bypass

  /** How many processes before c in s may run on the hart. */
  function Ahead(t: Tasks, s: seq<int>, c: int, hart: int): nat {
    if s == [] || s[0] == c then 0 else (if Allowed(t, hart, s[0]) then 1 else 0) + Ahead(t, s[1..], c, hart)
  }

  /** Arrivals at the tail overtake nobody. */
  lemma {:induction false} AheadAppend(t: Tasks, s: seq<int>, r: seq<int>, c: int, hart: int)
    requires c in s
    ensures Ahead(t, s + r, c, hart) == Ahead(t, s, c, hart)
  {
    if s[0] != c {
      assert (s + r)[1..] == s[1..] + r;
      AheadAppend(t, s[1..], r, c, hart);
    }
  }

  /** Only the masks of those ahead matter. */
  lemma {:induction false} AheadSame(t: Tasks, t': Tasks, s: seq<int>, c: int, hart: int)
    requires forall d :: d in s ==> (Allowed(t', hart, d) <==> Allowed(t, hart, d))
    ensures Ahead(t', s, c, hart) == Ahead(t, s, c, hart)
  {
    if s != [] && s[0] != c {
      AheadSame(t, t', s[1..], c, hart);
    }
  }

  /** Departures of others bring c forward. */
  lemma {:induction false} AheadWithout(t: Tasks, s: seq<int>, i: nat, c: int, hart: int)
    requires i < |s| && s[i] != c && c in s
    ensures c in Without(s, i) && Ahead(t, Without(s, i), c, hart) <= Ahead(t, s, c, hart)
  {
    if i == 0 {
      assert Without(s, 0) == s[1..];
    } else {
      assert Without(s, i) == [s[0]] + Without(s[1..], i - 1);
      if s[0] != c {
        AheadWithout(t, s[1..], i - 1, c, hart);
      }
    }
  }

  /** The hart takes c if nobody is ahead of it; otherwise one fewer is ahead. */
  lemma {:induction false} AheadPick(t: Tasks, s: seq<int>, c: int, hart: int)
    requires c in s && Allowed(t, hart, c)
    ensures Pick(t, s, hart) < |s|
    ensures if Ahead(t, s, c, hart) == 0 then s[Pick(t, s, hart)] == c
            else s[Pick(t, s, hart)] != c && Ahead(t, Without(s, Pick(t, s, hart)), c, hart) == Ahead(t, s, c, hart) - 1
  {
    if s[0] == c {
    } else if Allowed(t, hart, s[0]) {
      assert Without(s, 0) == s[1..];
    } else {
      AheadPick(t, s[1..], c, hart);
      var i := Pick(t, s[1..], hart);
      assert Without(s, i + 1) == [s[0]] + Without(s[1..], i);
    }
  }

  /** The ready queue has only grown at its tail. */
  ghost predicate Grown(t: Tasks, t': Tasks) {
    && (forall hart, d :: d in Q(t, Ready) ==> (Allowed(t', hart, d) <==> Allowed(t, hart, d)))
    && exists r :: Q(t', Ready) == Q(t, Ready) + r
  }

  lemma GrownTrans(t: Tasks, u: Tasks, v: Tasks)
    requires Grown(t, u) && Grown(u, v)
    ensures Grown(t, v)
  {
    var r :| Q(u, Ready) == Q(t, Ready) + r;
    var r' :| Q(v, Ready) == Q(u, Ready) + r';
    assert Q(v, Ready) == Q(t, Ready) + (r + r');
    hide Allowed;
    forall hart, d | d in Q(t, Ready) ensures Allowed(v, hart, d) <==> Allowed(t, hart, d) {
      assert d in Q(u, Ready);
    }
  }

  lemma GrownAhead(t: Tasks, t': Tasks, c: int, hart: int)
    requires Grown(t, t') && c in Q(t, Ready)
    ensures c in Q(t', Ready) && Ahead(t', Q(t', Ready), c, hart) == Ahead(t, Q(t, Ready), c, hart)
  {
    var r :| Q(t', Ready) == Q(t, Ready) + r;
    AheadAppend(t', Q(t, Ready), r, c, hart);
    AheadSame(t, t', Q(t, Ready), c, hart);
  }

  lemma EnqueueGrown(t: Tasks, c: int, h: Head, s: Status)
    requires Sized(t) && IsPcb(c)
    ensures Grown(t, Enqueue(t, c, h, s))
  {
    assert Q(Enqueue(t, c, h, s), Ready) == Q(t, Ready) + if h == Ready then [c] else [];
  }

  lemma WakeGrown(t: Tasks, h: Head, keep: seq<int>, go: seq<int>)
    requires Sized(t) && h != Ready
    ensures Grown(t, Wake(t, h, keep, go))
  {
    assert Q(Wake(t, h, keep, go), Ready) == Q(t, Ready) + go;
  }

  /** A ready process that may run on the hart is dispatched by it at once if no such process is ahead;
      otherwise it waits with one fewer ahead. */
  lemma DispatchBypass(t: Tasks, hart: int, now: int, c: int)
    requires Inside(t, hart) && IsHart(hart) && c in Q(t, Ready) && Allowed(t, hart, c)
    ensures var t' := Dispatch(t, hart, now);
            if Ahead(t, Q(t, Ready), c, hart) == 0 then t'.cur[hart] == c && IsPcb(c) && t'.status[c] == RUNNING
            else
              && (Allowed(t', hart, c) <==> Allowed(t, hart, c)) && c in Q(t', Ready)
              && Ahead(t', Q(t', Ready), c, hart) == Ahead(t, Q(t, Ready), c, hart) - 1
  {
    var u := WakeDue(t, now);
    WakeGrown(t, Sleep, Later(t.wake, Q(t, Sleep), now), Due(t.wake, Q(t, Sleep), now));
    DueInv(t, hart, now);
    NextBypass(t, u, hart, hart, c);
  }

  /** The other hart may take c itself; it never lets anyone past. */
  lemma DispatchOther(t: Tasks, hart: int, now: int, c: int, mine: int)
    requires Inside(t, hart) && IsHart(hart) && c in Q(t, Ready)
    ensures var t' := Dispatch(t, hart, now);
            || (t'.cur[hart] == c && IsPcb(c) && t'.status[c] == RUNNING)
            || ((Allowed(t', mine, c) <==> Allowed(t, mine, c)) && c in Q(t', Ready)
                && Ahead(t', Q(t', Ready), c, mine) <= Ahead(t, Q(t, Ready), c, mine))
  {
    var u := WakeDue(t, now);
    WakeGrown(t, Sleep, Later(t.wake, Q(t, Sleep), now), Due(t.wake, Q(t, Sleep), now));
    DueInv(t, hart, now);
    NextBypass(t, u, hart, mine, c);
  }

  lemma NextBypass(t: Tasks, u: Tasks, hart: int, mine: int, c: int)
    requires Inside(u, hart) && IsHart(hart) && Grown(t, u) && c in Q(t, Ready)
    ensures var t' := Next(u, hart);
            || (t'.cur[hart] == c && IsPcb(c) && t'.status[c] == RUNNING)
            || ((Allowed(t', mine, c) <==> Allowed(t, mine, c)) && c in Q(t', Ready)
                && Ahead(t', Q(t', Ready), c, mine) <= Ahead(t, Q(t, Ready), c, mine))
    ensures mine == hart && Allowed(t, hart, c) ==>
              var t' := Next(u, hart);
              if Ahead(t, Q(t, Ready), c, hart) == 0 then t'.cur[hart] == c && IsPcb(c) && t'.status[c] == RUNNING
              else
                && (Allowed(t', hart, c) <==> Allowed(t, hart, c)) && c in Q(t', Ready)
                && Ahead(t', Q(t', Ready), c, hart) == Ahead(t, Q(t, Ready), c, hart) - 1
  {
    hide Ahead, Pick, Without, Queued;
    var v := Yielded(u, hart);
    YieldedInv(u, hart);
    YieldedGrown(u, hart);
    GrownTrans(t, u, v);
    GrownAhead(t, v, c, mine);
    var s := Q(v, Ready);
    var i := Pick(v, s, hart);
    if Allowed(v, hart, c) {
      AheadPick(v, s, c, hart);
    }
    if i < |s| {
      DequeueQueued(v, Ready, i);
      var t' := Run(v, hart, i);
      assert Q(t', Ready) == Without(s, i);
      if s[i] != c {
        AheadWithout(v, s, i, c, mine);
        AheadSame(v, t', Without(s, i), c, mine);
      }
    } else {
      AheadSame(v, Next(u, hart), s, c, mine);
    }
  }

  lemma YieldedGrown(t: Tasks, hart: int)
    requires Sized(t) && 0 <= hart < HARTS
    ensures Grown(t, Yielded(t, hart))
  {
    var c := t.cur[hart];
    if IsPcb(c) && t.status[c] == RUNNING {
      EnqueueGrown(t, c, Ready, READY);
    } else {
      assert Q(t, Ready) == Q(t, Ready) + [];
    }
  }

  /** Whatever is dispatched may run on its hart. */
  lemma DispatchAllowed(t: Tasks, hart: int, now: int)
    requires Inside(t, hart) && IsHart(hart)
    ensures var t' := Dispatch(t, hart, now); t'.cur[hart] == IDLE || Allowed(t', hart, t'.cur[hart])
  {
  }

  // ---------------------------------------------------------------- steps without a switch

  ghost predicate Suffix(s: seq<int>, r: seq<int>) {
    |r| <= |s| && r == s[|s| - |r|..]
  }

  /** Some waiters were woken, first come first; nothing else happened. */
  ghost predicate Calm(t: Tasks, t': Tasks) {
    && Sized(t) && Sized(t')
    && t'.cur == t.cur && t'.cpu == t.cpu && t'.wake == t.wake && t'.mask == t.mask
    && (forall c :: IsPcb(c) ==>
          (t'.status[c] == RUNNING <==> t.status[c] == RUNNING) && (t'.status[c] == EXITED <==> t.status[c] == EXITED))
    && (forall h :: h != Ready ==> Suffix(Q(t, h), Q(t', h)))
    && Grown(t, t')
  }

  lemma CalmTrans(t: Tasks, u: Tasks, v: Tasks)
    requires Calm(t, u) && Calm(u, v)
    ensures Calm(t, v)
  {
    GrownTrans(t, u, v);
    hide Grown;
    forall h | h != Ready ensures Suffix(Q(t, h), Q(v, h)) {
      assert Suffix(Q(t, h), Q(u, h)) && Suffix(Q(u, h), Q(v, h));
    }
  }

  lemma CalmSelf(t: Tasks)
    requires Sized(t)
    ensures Calm(t, t)
  {
    assert Q(t, Ready) == Q(t, Ready) + [];
  }

  lemma WakeCalm(t: Tasks, hart: int, h: Head, n: nat)
    requires Inside(t, hart) && h != Ready && n <= |Q(t, h)|
    ensures Splits(Q(t, h), Q(t, h)[n..], Q(t, h)[..n])
    ensures Calm(t, Wake(t, h, Q(t, h)[n..], Q(t, h)[..n])) && Inside(Wake(t, h, Q(t, h)[n..], Q(t, h)[..n]), hart)
  {
    hide Queued, Grown, Distinct, Harts, Elsewhere, Suffix;
    var keep, go := Q(t, h)[n..], Q(t, h)[..n];
    DistinctAt(t, h);
    SplitAt(Q(t, h), n);
    WakeGrown(t, h, keep, go);
    WakeInv(t, hart, h, keep, go);
    MembersAt(t, h, go);
    WakeSuffix(t, h, n);
  }

  lemma DistinctAt(t: Tasks, h: Head)
    requires Queued(t)
    ensures Sized(t) && Distinct(Q(t, h))
  {
  }

  lemma WakeSuffix(t: Tasks, h: Head, n: nat)
    requires Sized(t) && h != Ready && n <= |Q(t, h)|
    ensures forall g :: g != Ready ==> Suffix(Q(t, g), Q(Wake(t, h, Q(t, h)[n..], Q(t, h)[..n]), g))
  {
  }

  lemma SplitAt(s: seq<int>, n: nat)
    requires Distinct(s) && n <= |s|
    ensures Splits(s, s[n..], s[..n])
  {
    assert s == s[..n] + s[n..];
    forall c | c in s[n..] ensures c !in s[..n] {
      var i :| 0 <= i < |s| - n && s[n..][i] == c;
      assert s[n + i] == c;
    }
  }

  lemma WakeAllCalm(t: Tasks, hart: int, h: Head)
    requires Inside(t, hart) && h != Ready
    ensures Calm(t, WakeAll(t, h)) && Inside(WakeAll(t, h), hart)
  {
    hide Wake, Calm, Inside;
    assert Q(t, h)[|Q(t, h)|..] == [] && Q(t, h)[..|Q(t, h)|] == Q(t, h);
    WakeCalm(t, hart, h, |Q(t, h)|);
  }
}
