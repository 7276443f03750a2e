/** The system calls that block and wake processes, as atomic steps between calls of the scheduler. */
module Syscalls {
  import opened Rings
  import opened Sched

  const OBJECTS: int := 16                // LOCK_NUM, BARRIER_NUM, CONDITION_NUM, MBOX_NUM
  const ROOM: int := 64                   // MAX_MBOX_LENGTH

  /** What a process does when it is switched to again inside a system call. */
  datatype Cont = Done | Acquiring(l: int) | Sending(m: int, msg: seq<int>) | Receiving(m: int, len: int)

  datatype Mutex = Mutex(locked: bool, owner: int, key: int)
  datatype Barrier = Barrier(active: bool, goal: int, counter: int)
  datatype Box = Box(active: bool, name: string, cite: int, buf: seq<int>)

  /** The rest of the process table and the synchronisation objects. */
  datatype Sync = Sync(pid: seq<int>, tid: seq<int>, cont: seq<Cont>, lastPid: int,
                       locks: seq<Mutex>, nlocks: int, bars: seq<Barrier>, conds: seq<bool>, boxes: seq<Box>)

  /** What happened so far: the process (table entry) that last took each lock, and those that have returned from
      acquiring it and have since neither released it themselves nor died; arrivals, finished rounds and killed waiters
      of each barrier; bytes put into and taken from each mailbox. */
  datatype Past = Past(taker: seq<int>, held: seq<set<int>>, arrived: seq<int>, rounds: seq<int>, lost: seq<int>,
                       sent: seq<seq<int>>, got: seq<seq<int>>)

  datatype K = K(t: Tasks, x: Sync, y: Past)

  predicate IsObj(i: int) {
    0 <= i < OBJECTS
  }

  predicate Shape(k: K) {
    && Sized(k.t)
    && |k.x.pid| == |k.x.tid| == |k.x.cont| == N
    && |k.x.locks| == |k.x.bars| == |k.x.conds| == |k.x.boxes| == OBJECTS
    && |k.y.taker| == |k.y.held| == |k.y.arrived| == |k.y.rounds| == |k.y.lost| == |k.y.sent| == |k.y.got| == OBJECTS
  }

  // ---------------------------------------------------------------- the invariant

  /** Why a process with continuation `co` may be on queue h. */
  predicate Reason(status: seq<Status>, x: Sync, h: Head, co: Cont) {
    match h
    case Ready => true
    case Sleep => co == Done
    case Waiters(d) => co == Done && 0 <= d < |status| && status[d] != EXITED
    case Lock(l) => co == Acquiring(l) && 0 <= l < |x.locks| && x.locks[l].locked
    case Cond(i) => co.Acquiring? && 0 <= i < |x.conds|
    case Bar(b) => co == Done && 0 <= b < |x.bars|
    case Full(m) => co.Sending? && co.m == m && 0 <= m < |x.boxes| && |x.boxes[m].buf| + |co.msg| > ROOM
    case Empty(m) => co.Receiving? && co.m == m && 0 <= m < |x.boxes| && |x.boxes[m].buf| < co.len
  }

  predicate ContOk(x: Sync, co: Cont) {
    match co
    case Done => true
    case Acquiring(l) => 0 <= l < x.nlocks
    case Sending(m, _) => IsObj(m)
    case Receiving(m, len) => IsObj(m) && len >= 0
  }

  /** Every waiting process still has a reason to wait. */
  ghost predicate Waiting(k: K)
    requires Shape(k)
  {
    forall c :: IsPcb(c) ==>
      ContOk(k.x, k.x.cont[c]) && (k.t.at[c].On? ==> Reason(k.t.status, k.x, k.t.at[c].h, k.x.cont[c]))
  }

  /** A locked lock was taken by a living process of its owner; whoever counts as a holder is alive. */
  ghost predicate OwnedAt(k: K, l: int)
    requires Shape(k) && IsObj(l)
  {
    var m := k.x.locks[l];
    && (forall c :: c in k.y.held[l] ==> IsPcb(c) && k.t.status[c] != EXITED)
    && (m.locked ==>
          && l < k.x.nlocks && IsPcb(k.y.taker[l])
          && k.t.status[k.y.taker[l]] != EXITED && k.x.pid[k.y.taker[l]] == m.owner)
  }

  ghost predicate Owned(k: K)
    requires Shape(k)
  {
    0 <= k.x.nlocks <= OBJECTS && forall l :: IsObj(l) ==> OwnedAt(k, l)
  }

  function Times(goal: int, rounds: int): int {
    goal * rounds
  }

  /** Arrivals are whole rounds and the present, unfinished one. */
  ghost predicate CountedAt(k: K, b: int)
    requires Shape(k) && IsObj(b)
  {
    var r := k.x.bars[b];
    r.active && r.goal >= 1 ==>
      && k.y.lost[b] >= 0 && r.counter == |Q(k.t, Bar(b))| + k.y.lost[b] && r.counter < r.goal
      && k.y.arrived[b] == Times(r.goal, k.y.rounds[b]) + r.counter
  }

  ghost predicate Counted(k: K)
    requires Shape(k)
  {
    forall b :: IsObj(b) ==> CountedAt(k, b)
  }

  /** What was sent is what was received and then what is in the buffer. */
  ghost predicate Streams(k: K)
    requires Shape(k)
  {
    forall m :: IsObj(m) ==> |k.x.boxes[m].buf| <= ROOM && k.y.sent[m] == k.y.got[m] + k.x.boxes[m].buf
  }

  ghost predicate Good(k: K) {
    Shape(k) && Waiting(k) && Owned(k) && Counted(k) && Streams(k)
  }

  lemma GoodShape(k: K)
    requires Good(k)
    ensures Shape(k)
  {
  }

  // ---------------------------------------------------------------- changes of the queues alone

  /** Nobody starts to wait, nobody dies, and the barrier queues stay as they are. */
  ghost predicate Eases(t: Tasks, t': Tasks) {
    && Sized(t) && Sized(t')
    && (forall c :: IsPcb(c) && t'.at[c].On? ==> t'.at[c] == t.at[c] || t'.at[c] == On(Ready))
    && (forall c :: IsPcb(c) && t.status[c] != EXITED ==> t'.status[c] != EXITED)
    && (forall b :: Q(t', Bar(b)) == Q(t, Bar(b)))
  }

  lemma ReasonStays(s: seq<Status>, x: Sync, s': seq<Status>, x': Sync, h: Head, co: Cont)
    requires Reason(s, x, h, co) && |s| == |s'| && (forall d :: 0 <= d < |s| && s[d] != EXITED ==> s'[d] != EXITED)
    requires |x'.locks| == |x.locks| && forall l :: 0 <= l < |x.locks| && x.locks[l].locked ==> x'.locks[l].locked
    requires x'.boxes == x.boxes && |x'.bars| == |x.bars| && |x'.conds| == |x.conds|
    ensures Reason(s', x', h, co)
  {
  }

  lemma EasesGood(k: K, t': Tasks)
    requires Good(k) && Eases(k.t, t')
    ensures Good(k.(t := t'))
  {
    hide Reason, ContOk;
    var k' := k.(t := t');
    forall c | IsPcb(c) && k'.t.at[c].On? ensures Reason(t'.status, k.x, t'.at[c].h, k.x.cont[c]) {
      if t'.at[c] == On(Ready) {
        ReadyReason(t'.status, k.x, k.x.cont[c]);
      } else {
        ReasonStays(k.t.status, k.x, t'.status, k.x, t'.at[c].h, k.x.cont[c]);
      }
    }
    forall l | IsObj(l) ensures OwnedAt(k', l) {
      assert OwnedAt(k, l);
    }
    forall b | IsObj(b) ensures CountedAt(k', b) {
      assert CountedAt(k, b);
    }
  }

  lemma ReadyReason(s: seq<Status>, x: Sync, co: Cont)
    ensures Reason(s, x, Ready, co)
  {
  }

  lemma WakeEases(t: Tasks, h: Head, keep: seq<int>, go: seq<int>)
    requires Sized(t) && h != Ready && !h.Bar?
    ensures Eases(t, Wake(t, h, keep, go))
  {
  }

  lemma EasesTrans(t: Tasks, u: Tasks, v: Tasks)
    requires Eases(t, u) && Eases(u, v)
    ensures Eases(t, v)
  {
  }

  lemma DispatchEases(t: Tasks, hart: int, now: int)
    requires Inside(t, hart) && IsHart(hart)
    ensures Eases(t, Dispatch(t, hart, now))
  {
    hide Pick, Next, Wake, Later, Due;
    var u := WakeDue(t, now);
    DueInv(t, hart, now);
    WakeEases(t, Sleep, Later(t.wake, Q(t, Sleep), now), Due(t.wake, Q(t, Sleep), now));
    NextEases(u, hart);
    EasesTrans(t, u, Next(u, hart));
  }

  lemma NextEases(t: Tasks, hart: int)
    requires Inside(t, hart) && IsHart(hart)
    ensures Eases(t, Next(t, hart))
  {
    hide Pick, Queued, Without;
    var u := Yielded(t, hart);
    YieldedInv(t, hart);
    var i := Pick(u, Q(u, Ready), hart);
    if i < |Q(u, Ready)| {
      DequeueQueued(u, Ready, i);
    }
  }

  // ---------------------------------------------------------------- blocking and waking

  /** `do_block` on the current process, which will go on with `co`. */
  function Parked(k: K, hart: int, h: Head, co: Cont): K
    requires Shape(k) && Busy(k.t, hart)
  {
    var c := k.t.cur[hart];
    k.(t := Block(k.t, c, h), x := k.x.(cont := k.x.cont[c := co]))
  }

  lemma ParkedGood(k: K, hart: int, h: Head, co: Cont)
    requires Good(k) && Inside(k.t, hart) && Busy(k.t, hart) && h != Ready && !h.Bar?
    requires Reason(k.t.status, k.x, h, co) && ContOk(k.x, co)
    ensures Good(Parked(k, hart, h, co)) && Inside(Parked(k, hart, h, co).t, hart)
  {
    hide Reason, ContOk, Inside;
    BlockInv(k.t, hart, h);
    var k' := Parked(k, hart, h, co);
    forall c | IsPcb(c) && k'.t.at[c].On? ensures Reason(k'.t.status, k'.x, k'.t.at[c].h, k'.x.cont[c]) {
      ReasonStays(k.t.status, k.x, k'.t.status, k'.x, k'.t.at[c].h, k'.x.cont[c]);
    }
    forall c | IsPcb(c) ensures ContOk(k'.x, k'.x.cont[c]) {
      ContStays(k.x, k'.x, k'.x.cont[c]);
    }
    forall l | IsObj(l) ensures OwnedAt(k', l) {
      assert OwnedAt(k, l);
    }
    forall b | IsObj(b) ensures CountedAt(k', b) {
      assert CountedAt(k, b) && Q(k'.t, Bar(b)) == Q(k.t, Bar(b));
    }
  }

  lemma ContStays(x: Sync, x': Sync, co: Cont)
    requires ContOk(x, co) && x.nlocks <= x'.nlocks
    ensures ContOk(x', co)
  {
  }

  /** `do_scheduler` */
  function Switched(k: K, hart: int, now: int): K
    requires Shape(k) && IsHart(hart)
  {
    k.(t := Dispatch(k.t, hart, now))
  }

  lemma SwitchedGood(k: K, hart: int, now: int)
    requires Good(k) && Inside(k.t, hart) && IsHart(hart)
    ensures Good(Switched(k, hart, now)) && Stable(Switched(k, hart, now).t)
  {
    hide Good, Dispatch, Eases, Inv;
    DispatchEases(k.t, hart, now);
    DispatchInv(k.t, hart, now);
    EasesGood(k, Dispatch(k.t, hart, now));
  }

  /** `do_unblock` on all members of h. */
  function Woken(k: K, h: Head): K
    requires Shape(k)
  {
    k.(t := WakeAll(k.t, h))
  }

  lemma WokenGood(k: K, hart: int, h: Head)
    requires Good(k) && Inside(k.t, hart) && h != Ready && !h.Bar?
    ensures Good(Woken(k, h)) && Inside(Woken(k, h).t, hart) && Calm(k.t, Woken(k, h).t) && Q(Woken(k, h).t, h) == []
  {
    hide Waiting, Owned, Counted, Streams, Eases, Inside, Calm;
    WakeEases(k.t, h, [], Q(k.t, h));
    WakeAllCalm(k.t, hart, h);
    EasesGood(k, WakeAll(k.t, h));
  }

  // ---------------------------------------------------------------- mutexes

  /** The lock is free: the current process takes it. */
  function Taken(k: K, hart: int, l: int): K
    requires Shape(k) && Busy(k.t, hart) && IsObj(l)
  {
    var c := k.t.cur[hart];
    k.(x := k.x.(locks := k.x.locks[l := k.x.locks[l].(locked := true, owner := k.x.pid[c])],
                 cont := k.x.cont[c := Done]),
       y := k.y.(taker := k.y.taker[l := c], held := k.y.held[l := k.y.held[l] + {c}]))
  }

  lemma TakenGood(k: K, inside: int, hart: int, l: int)
    requires Good(k) && Inside(k.t, inside) && Busy(k.t, hart) && 0 <= l < k.x.nlocks && IsObj(l)
             && !k.x.locks[l].locked
    ensures Good(Taken(k, hart, l))
  {
    hide Reason, ContOk;
    var k' := Taken(k, hart, l);
    var c0 := k.t.cur[hart];
    assert k.t.at[c0] == Off;
    forall c | IsPcb(c) && k'.t.at[c].On? ensures Reason(k'.t.status, k'.x, k'.t.at[c].h, k'.x.cont[c]) {
      ReasonStays(k.t.status, k.x, k'.t.status, k'.x, k'.t.at[c].h, k'.x.cont[c]);
    }
    forall c | IsPcb(c) ensures ContOk(k'.x, k'.x.cont[c]) {
      DoneOk(k'.x);
      ContStays(k.x, k'.x, k.x.cont[c]);
    }
    forall j | IsObj(j) ensures OwnedAt(k', j) {
      assert OwnedAt(k, j);
    }
    forall b | IsObj(b) ensures CountedAt(k', b) {
      assert CountedAt(k, b);
    }
  }

  lemma DoneOk(x: Sync)
    ensures ContOk(x, Done)
  {
  }

  /** What `do_mutex_lock_release` and `release_process_mutex` do to a lock: it is freed and every waiter woken. */
  function Unlocked(k: K, l: int): K
    requires Shape(k) && IsObj(l)
  {
    k.(t := WakeAll(k.t, Lock(l)), x := k.x.(locks := k.x.locks[l := k.x.locks[l].(locked := false, owner := 0)]))
  }

  /** Process c itself has given lock l up. */
  function LetGo(k: K, l: int, c: int): K
    requires Shape(k) && IsObj(l)
  {
    k.(y := k.y.(held := k.y.held[l := k.y.held[l] - {c}]))
  }

  lemma LetGoGood(k: K, l: int, c: int)
    requires Good(k) && IsObj(l)
    ensures Good(LetGo(k, l, c))
  {
    hide Reason, ContOk;
    var k' := LetGo(k, l, c);
    forall j | IsObj(j) ensures OwnedAt(k', j) {
      assert OwnedAt(k, j);
    }
    forall b | IsObj(b) ensures CountedAt(k', b) {
      assert CountedAt(k, b);
    }
  }

  lemma UnlockedGood(k: K, hart: int, l: int)
    requires Good(k) && Inside(k.t, hart) && IsObj(l)
    ensures Good(Unlocked(k, l)) && Inside(Unlocked(k, l).t, hart) && Calm(k.t, Unlocked(k, l).t)
  {
    hide Inside, Reason, ContOk, Inv, Eases, Calm;
    WokenGood(k, hart, Lock(l));
    var u, k' := Woken(k, Lock(l)), Unlocked(k, l);
    forall c | IsPcb(c) && k'.t.at[c].On? ensures Reason(k'.t.status, k'.x, k'.t.at[c].h, k'.x.cont[c]) {
      NotOn(k.t, hart, Lock(l), c);
      UnlockReason(u.t.status, k.x, k'.x, l, k'.t.at[c].h, k.x.cont[c]);
    }
    forall c | IsPcb(c) ensures ContOk(k'.x, k'.x.cont[c]) {
      ContStays(k.x, k'.x, k.x.cont[c]);
    }
    forall j | IsObj(j) ensures OwnedAt(k', j) {
      assert OwnedAt(u, j);
    }
    forall b | IsObj(b) ensures CountedAt(k', b) {
      assert CountedAt(u, b);
    }
  }

  /** After waking a queue nobody is on it. */
  lemma NotOn(t: Tasks, hart: int, h: Head, c: int)
    requires Inside(t, hart) && h != Ready && IsPcb(c)
    ensures Sized(WakeAll(t, h)) && WakeAll(t, h).at[c] != On(h)
  {
    WakeAllInv(t, hart, h);
    assert Q(WakeAll(t, h), h) == [];
  }

  lemma UnlockReason(s: seq<Status>, x: Sync, x': Sync, l: int, h: Head, co: Cont)
    requires Reason(s, x, h, co) && h != Lock(l) && 0 <= l < |x.locks| && x'.boxes == x.boxes && |x'.locks| == |x.locks|
             && |x'.bars| == |x.bars| && |x'.conds| == |x.conds|
    requires forall j :: 0 <= j < |x.locks| && j != l ==> x'.locks[j] == x.locks[j]
    ensures Reason(s, x', h, co)
  {
  }

  /** `release_process_mutex`, from lock i on. */
  function Released(k: K, p: int, i: nat): (r: K)
    requires Shape(k)
    ensures Shape(r)
    decreases OBJECTS - i
  {
    if i >= k.x.nlocks || i >= OBJECTS then k else
    Released(if k.x.locks[i].locked && k.x.locks[i].owner == p then Unlocked(k, i) else k, p, i + 1)
  }

  lemma {:induction false} ReleasedGood(k: K, hart: int, p: int, i: nat)
    requires Good(k) && Inside(k.t, hart)
    requires forall l :: 0 <= l < i && IsObj(l) && k.x.locks[l].locked ==> k.x.locks[l].owner != p
    ensures var r := Released(k, p, i);
            && Good(r) && Inside(r.t, hart) && Calm(k.t, r.t)
            && (forall l :: IsObj(l) && r.x.locks[l].locked ==> r.x.locks[l].owner != p && r.x.locks[l] == k.x.locks[l])
            && (forall l :: IsObj(l) && k.x.locks[l].owner != p ==> r.x.locks[l] == k.x.locks[l])
            && r.x == k.x.(locks := r.x.locks) && r.y == k.y
    decreases OBJECTS - i
  {
    hide Inside, Waiting, Counted, Streams, Calm;
    if i >= k.x.nlocks || i >= OBJECTS {
      forall l | IsObj(l) && k.x.locks[l].locked ensures k.x.locks[l].owner != p {
        assert OwnedAt(k, l);
      }
      CalmSelf(k.t);
    } else if k.x.locks[i].locked && k.x.locks[i].owner == p {
      UnlockedGood(k, hart, i);
      ReleasedGood(Unlocked(k, i), hart, p, i + 1);
      CalmTrans(k.t, Unlocked(k, i).t, Released(k, p, i).t);
    } else {
      ReleasedGood(k, hart, p, i + 1);
    }
  }

  // ---------------------------------------------------------------- exit and kill

  /** The wake-ups and releases that `do_exit` and `do_kill` do for process c before it dies. */
  function Unburdened(k: K, c: int): (r: K)
    requires Shape(k) && IsPcb(c)
    ensures Shape(r)
  {
    Released(Woken(k, Waiters(c)), k.x.pid[c], 0)
  }

  /** Process c depends on nobody's waiting and holds nothing. */
  ghost predicate Free(k: K, c: int) {
    && Shape(k) && IsPcb(c) && Q(k.t, Waiters(c)) == []
    && forall l :: IsObj(l) && k.x.locks[l].locked ==> k.x.locks[l].owner != k.x.pid[c]
  }

  lemma UnburdenedGood(k: K, hart: int, c: int)
    requires Good(k) && Inside(k.t, hart) && IsPcb(c)
    ensures var r := Unburdened(k, c);
            && Good(r) && Inside(r.t, hart) && Calm(k.t, r.t) && Free(r, c)
            && r.x == k.x.(locks := r.x.locks) && r.y == k.y
            && (forall l :: IsObj(l) && r.x.locks[l].locked ==> r.x.locks[l] == k.x.locks[l])
            && (forall l :: IsObj(l) && k.x.locks[l].owner != k.x.pid[c] ==> r.x.locks[l] == k.x.locks[l])
  {
    hide Waiting, Owned, Counted, Streams, Inside;
    var u := Woken(k, Waiters(c));
    WokenGood(k, hart, Waiters(c));
    ReleasedGood(u, hart, k.x.pid[c], 0);
    CalmTrans(k.t, u.t, Released(u, k.x.pid[c], 0).t);
  }

  /** Nobody's holdings but c's change. */
  function Dropped(held: seq<set<int>>, c: int): (r: seq<set<int>>)
    ensures |r| == |held| && forall l :: 0 <= l < |held| ==> r[l] == held[l] - {c}
  {
    seq(|held|, l requires 0 <= l < |held| => held[l] - {c})
  }

  /** The process is marked EXITED; it holds nothing any more. */
  function Dead(k: K, c: int): K
    requires Shape(k) && IsPcb(c)
  {
    k.(t := Exited(k.t, c), y := k.y.(held := Dropped(k.y.held, c)))
  }

  lemma DeadGood(k: K, hart: int, c: int)
    requires Good(k) && Inside(k.t, hart) && Free(k, c) && k.t.at[c] == Off
             && (k.t.status[c] == RUNNING ==> k.t.cpu[c] == hart)
    ensures Good(Dead(k, c)) && Inside(Dead(k, c).t, hart)
  {
    hide Reason, ContOk, Inside;
    ExitedInv(k.t, hart, c);
    var k' := Dead(k, c);
    forall d | IsPcb(d) && k'.t.at[d].On? ensures Reason(k'.t.status, k.x, k'.t.at[d].h, k.x.cont[d]) {
      NobodyOn(k.t, hart, Waiters(c), d);
      DeathReason(k.t.status, k.x, c, k.t.at[d].h, k.x.cont[d]);
    }
    forall l | IsObj(l) ensures OwnedAt(k', l) {
      assert OwnedAt(k, l);
    }
    forall b | IsObj(b) ensures CountedAt(k', b) {
      assert CountedAt(k, b) && Q(k'.t, Bar(b)) == Q(k.t, Bar(b));
    }
  }

  lemma NobodyOn(t: Tasks, hart: int, h: Head, c: int)
    requires Inside(t, hart) && Q(t, h) == [] && IsPcb(c)
    ensures t.at[c] != On(h)
  {
  }

  lemma DeathReason(s: seq<Status>, x: Sync, c: int, h: Head, co: Cont)
    requires Reason(s, x, h, co) && h != Waiters(c) && 0 <= c < |s|
    ensures Reason(s[c := EXITED], x, h, co)
  {
  }

  /** Process c leaves the queue it is on. */
  function Unqueued(k: K, c: int): (r: K)
    requires Shape(k) && IsPcb(c)
    ensures Shape(r)
  {
    var w := k.t.at[c];
    if w.On? && c in Q(k.t, w.h) then
      k.(t := Dequeue(k.t, w.h, Position(Q(k.t, w.h), c)),
         y := if w.h.Bar? && IsObj(w.h.i) then k.y.(lost := k.y.lost[w.h.i := k.y.lost[w.h.i] + 1]) else k.y)
    else k
  }

  /** `do_kill` of one process other than the current one. */
  function Killed(k: K, c: int): K
    requires Shape(k) && IsPcb(c)
  {
    Dead(Unqueued(Unburdened(k, c), c), c)
  }

  lemma KilledGood(k: K, hart: int, c: int)
    requires Good(k) && Inside(k.t, hart) && IsPcb(c) && k.t.status[c] != RUNNING && k.t.status[c] != EXITED
    ensures Good(Killed(k, c)) && Inside(Killed(k, c).t, hart)
    ensures Killed(k, c).t.cur == k.t.cur && Killed(k, c).x.pid == k.x.pid
    ensures forall d :: IsPcb(d) ==> (Killed(k, c).t.status[d] == RUNNING <==> k.t.status[d] == RUNNING)
  {
    hide Waiting, Owned, Counted, Streams, Inside;
    UnburdenedGood(k, hart, c);
    ReapedGood(Unburdened(k, c), hart, c);
  }

  lemma ReapedGood(k: K, hart: int, c: int)
    requires Good(k) && Inside(k.t, hart) && Free(k, c) && k.t.status[c] != RUNNING && k.t.status[c] != EXITED
    ensures Good(Dead(Unqueued(k, c), c)) && Inside(Dead(Unqueued(k, c), c).t, hart)
  {
    hide Reason, ContOk, Without;
    OnQueue(k.t, hart, c);
    var h := k.t.at[c].h;
    var i := Position(Q(k.t, h), c);
    RemoveInv(k.t, hart, h, i);
    var k' := Dead(Unqueued(k, c), c);
    forall d | IsPcb(d) && k'.t.at[d].On? ensures Reason(k'.t.status, k.x, k'.t.at[d].h, k.x.cont[d]) {
      NobodyOn(k.t, hart, Waiters(c), d);
      DeathReason(k.t.status, k.x, c, k.t.at[d].h, k.x.cont[d]);
    }
    forall l | IsObj(l) ensures OwnedAt(k', l) {
      assert OwnedAt(k, l);
    }
    forall b | IsObj(b) ensures CountedAt(k', b) {
      assert CountedAt(k, b);
      WithoutLength(Q(k.t, h), i);
    }
  }

  lemma WithoutLength(s: seq<int>, i: nat)
    requires i < |s|
    ensures |Without(s, i)| == |s| - 1
  {
  }

  lemma OnQueue(t: Tasks, hart: int, c: int)
    requires Inside(t, hart) && IsPcb(c) && t.status[c] != RUNNING && t.status[c] != EXITED
    ensures t.at[c].On? && c in Q(t, t.at[c].h)
  {
  }

  // ---------------------------------------------------------------- new processes

  /** A free entry c of the table becomes a ready process. */
  function Started(k: K, c: int, pid: int, tid: int, mask: set<int>): K
    requires Shape(k) && IsPcb(c)
  {
    k.(t := Spawned(k.t, c, mask), x := k.x.(pid := k.x.pid[c := pid], tid := k.x.tid[c := tid],
                                             cont := k.x.cont[c := Done]))
  }

  lemma StartedGood(k: K, hart: int, c: int, pid: int, tid: int, mask: set<int>)
    requires Good(k) && Inside(k.t, hart) && IsPcb(c) && k.t.status[c] == EXITED
    ensures Good(Started(k, c, pid, tid, mask)) && Inside(Started(k, c, pid, tid, mask).t, hart)
  {
    hide Reason, ContOk;
    NoWaiters(k, hart, c);
    SpawnedInv(k.t, hart, c, mask);
    var k' := Started(k, c, pid, tid, mask);
    forall d | IsPcb(d) && k'.t.at[d].On? ensures Reason(k'.t.status, k'.x, k'.t.at[d].h, k'.x.cont[d]) {
      if d == c {
        ReadyReason(k'.t.status, k'.x, k'.x.cont[d]);
      } else {
        ReasonStays(k.t.status, k.x, k'.t.status, k'.x, k'.t.at[d].h, k.x.cont[d]);
      }
    }
    forall d | IsPcb(d) ensures ContOk(k'.x, k'.x.cont[d]) {
      DoneOk(k'.x);
      ContStays(k.x, k'.x, k.x.cont[d]);
    }
    forall l | IsObj(l) ensures OwnedAt(k', l) {
      assert OwnedAt(k, l);
    }
    forall b | IsObj(b) ensures CountedAt(k', b) {
      assert CountedAt(k, b) && Q(k'.t, Bar(b)) == Q(k.t, Bar(b));
    }
  }

  /** An EXITED process has no waiters. */
  lemma NoWaiters(k: K, hart: int, c: int)
    requires Good(k) && Inside(k.t, hart) && IsPcb(c) && k.t.status[c] == EXITED
    ensures Q(k.t, Waiters(c)) == []
  {
    forall d | IsPcb(d) ensures k.t.at[d] != On(Waiters(c)) {
      assert !Reason(k.t.status, k.x, Waiters(c), k.x.cont[d]);
    }
    NobodyMeansEmpty(k.t, Waiters(c));
  }

  lemma NobodyMeansEmpty(t: Tasks, h: Head)
    requires Queued(t) && forall d :: IsPcb(d) ==> t.at[d] != On(h)
    ensures Q(t, h) == []
  {
    if |Q(t, h)| > 0 {
      OfQueue(t, h, 0);
      assert false;
    }
  }

  lemma OfQueue(t: Tasks, h: Head, i: nat)
    requires Queued(t) && i < |Q(t, h)|
    ensures IsPcb(Q(t, h)[i]) && t.at[Q(t, h)[i]] == On(h)
  {
    assert Q(t, h)[i] in Q(t, h);
  }

  // ---------------------------------------------------------------- barriers

  function BarSet(k: K, b: int, r: Barrier, arrived: int, rounds: int, lost: int): K
    requires Shape(k) && IsObj(b)
  {
    k.(x := k.x.(bars := k.x.bars[b := r]),
       y := k.y.(arrived := k.y.arrived[b := arrived], rounds := k.y.rounds[b := rounds], lost := k.y.lost[b := lost]))
  }

  /** `do_barrier_wait`, the last arrival: everybody goes on. */
  function BarFull(k: K, b: int): K
    requires Shape(k) && IsObj(b)
  {
    BarSet(k.(t := WakeAll(k.t, Bar(b))), b, k.x.bars[b].(counter := 0), k.y.arrived[b] + 1, k.y.rounds[b] + 1, 0)
  }

  /** `do_barrier_wait`, any other arrival, before the switch. */
  function BarJoin(k: K, hart: int, b: int): K
    requires Shape(k) && IsObj(b) && Busy(k.t, hart)
  {
    var r := k.x.bars[b];
    var u := k.(t := Block(k.t, k.t.cur[hart], Bar(b)), x := k.x.(cont := k.x.cont[k.t.cur[hart] := Done]));
    BarSet(u, b, r.(counter := r.counter + 1), k.y.arrived[b] + 1, k.y.rounds[b], k.y.lost[b])
  }

  /** Changing one barrier and its queue. */
  lemma BarGood(k: K, t': Tasks, x': Sync, y': Past, b: int)
    requires Good(k) && IsObj(b) && Sized(t')
    requires x' == k.x.(bars := x'.bars, cont := x'.cont) && |x'.bars| == OBJECTS && |x'.cont| == N
    requires y' == k.y.(arrived := y'.arrived, rounds := y'.rounds, lost := y'.lost)
    requires |y'.arrived| == |y'.rounds| == |y'.lost| == OBJECTS
    requires forall c :: IsPcb(c) && t'.at[c].On? ==>
               t'.at[c] == On(Ready) || (t'.at[c] == On(Bar(b)) && x'.cont[c] == Done)
                 || (t'.at[c] == k.t.at[c] && x'.cont[c] == k.x.cont[c])
    requires forall c :: IsPcb(c) ==> x'.cont[c] == Done || x'.cont[c] == k.x.cont[c]
    requires forall c :: IsPcb(c) && k.t.status[c] != EXITED ==> t'.status[c] != EXITED
    requires forall j :: IsObj(j) && j != b ==>
               && Q(t', Bar(j)) == Q(k.t, Bar(j)) && x'.bars[j] == k.x.bars[j]
               && y'.arrived[j] == k.y.arrived[j] && y'.rounds[j] == k.y.rounds[j] && y'.lost[j] == k.y.lost[j]
    requires CountedAt(K(t', x', y'), b)
    ensures Good(K(t', x', y'))
  {
    hide Reason, ContOk;
    var k' := K(t', x', y');
    forall c | IsPcb(c) && k'.t.at[c].On? ensures Reason(k'.t.status, k'.x, k'.t.at[c].h, k'.x.cont[c]) {
      if t'.at[c] == On(Ready) {
        ReadyReason(t'.status, x', x'.cont[c]);
      } else if t'.at[c] == On(Bar(b)) && x'.cont[c] == Done {
        BarReason(t'.status, x', b);
      } else {
        ReasonStays(k.t.status, k.x, k'.t.status, k'.x, k'.t.at[c].h, k.x.cont[c]);
      }
    }
    forall c | IsPcb(c) ensures ContOk(k'.x, k'.x.cont[c]) {
      DoneOk(k'.x);
      ContStays(k.x, k'.x, k.x.cont[c]);
    }
    forall l | IsObj(l) ensures OwnedAt(k', l) {
      assert OwnedAt(k, l);
    }
    forall j | IsObj(j) ensures CountedAt(k', j) {
      assert CountedAt(k, j);
    }
  }

  lemma BarReason(s: seq<Status>, x: Sync, b: int)
    requires 0 <= b < |x.bars|
    ensures Reason(s, x, Bar(b), Done)
  {
  }

  lemma OneMore(goal: int, rounds: int)
    ensures Times(goal, rounds + 1) == Times(goal, rounds) + goal && Times(goal, 0) == 0
  {
  }

  lemma BarFullGood(k: K, hart: int, b: int)
    requires Good(k) && Inside(k.t, hart) && IsObj(b) && k.x.bars[b].counter + 1 >= k.x.bars[b].goal
    ensures Good(BarFull(k, b)) && Inside(BarFull(k, b).t, hart) && Calm(k.t, BarFull(k, b).t)
  {
    hide Inside, Times, Waiting, Owned, Streams, Calm;
    WakeAllCalm(k.t, hart, Bar(b));
    var k' := BarFull(k, b);
    assert CountedAt(k, b);
    OneMore(k.x.bars[b].goal, k.y.rounds[b]);
    BarGood(k, k'.t, k'.x, k'.y, b);
  }

  lemma BarJoinGood(k: K, hart: int, b: int)
    requires Good(k) && Inside(k.t, hart) && Busy(k.t, hart) && IsObj(b) && k.x.bars[b].counter + 1 < k.x.bars[b].goal
    ensures Good(BarJoin(k, hart, b)) && Inside(BarJoin(k, hart, b).t, hart)
  {
    hide Inside, Times, Waiting, Owned, Streams;
    BlockInv(k.t, hart, Bar(b));
    var k' := BarJoin(k, hart, b);
    assert CountedAt(k, b);
    BarGood(k, k'.t, k'.x, k'.y, b);
  }

  /** `do_barrier_init` on entry b, whose queue head it resets. */
  function BarOpened(k: K, b: int, goal: int): K
    requires Shape(k) && IsObj(b)
  {
    BarSet(k.(t := Reset(k.t, Bar(b))), b, Barrier(true, goal, 0), 0, 0, 0)
  }

  lemma BarOpenedGood(k: K, hart: int, b: int, goal: int)
    requires Good(k) && Inside(k.t, hart) && IsObj(b) && Q(k.t, Bar(b)) == []
    ensures Good(BarOpened(k, b, goal)) && Inside(BarOpened(k, b, goal).t, hart)
  {
    hide Inside, Times, Waiting, Owned, Streams;
    ResetInv(k.t, hart, Bar(b));
    var k' := BarOpened(k, b, goal);
    OneMore(goal, 0);
    BarGood(k, k'.t, k'.x, k'.y, b);
  }

  /** `do_barrier_destroy` */
  function BarClosed(k: K, b: int): K
    requires Shape(k) && IsObj(b)
  {
    BarSet(k.(t := WakeAll(k.t, Bar(b))), b, k.x.bars[b].(active := false), k.y.arrived[b], k.y.rounds[b], k.y.lost[b])
  }

  lemma BarClosedGood(k: K, hart: int, b: int)
    requires Good(k) && Inside(k.t, hart) && IsObj(b)
    ensures Good(BarClosed(k, b)) && Inside(BarClosed(k, b).t, hart) && Calm(k.t, BarClosed(k, b).t)
  {
    hide Inside, Times, Waiting, Owned, Streams, Calm;
    WakeAllCalm(k.t, hart, Bar(b));
    var k' := BarClosed(k, b);
    BarGood(k, k'.t, k'.x, k'.y, b);
  }

  // ---------------------------------------------------------------- mailboxes

  /** `do_mbox_send` with room: the message is appended and every receiver woken. */
  function Put(k: K, hart: int, m: int, msg: seq<int>): K
    requires Shape(k) && IsObj(m) && Busy(k.t, hart)
  {
    var r := k.x.boxes[m];
    k.(t := WakeAll(k.t, Empty(m)),
       x := k.x.(boxes := k.x.boxes[m := r.(buf := r.buf + msg)], cont := k.x.cont[k.t.cur[hart] := Done]),
       y := k.y.(sent := k.y.sent[m := k.y.sent[m] + msg]))
  }

  /** `do_mbox_recv` with enough data: the oldest bytes are taken and every sender woken. */
  function Get(k: K, hart: int, m: int, len: int): K
    requires Shape(k) && IsObj(m) && Busy(k.t, hart) && 0 <= len <= |k.x.boxes[m].buf|
  {
    var r := k.x.boxes[m];
    k.(t := WakeAll(k.t, Full(m)),
       x := k.x.(boxes := k.x.boxes[m := r.(buf := r.buf[len..])], cont := k.x.cont[k.t.cur[hart] := Done]),
       y := k.y.(got := k.y.got[m := k.y.got[m] + r.buf[..len]]))
  }

  /** Changing one mailbox, having woken everybody its new contents concern. */
  lemma BoxGood(k: K, hart: int, h: Head, x': Sync, y': Past, m: int, c0: int)
    requires Good(k) && Inside(k.t, hart) && IsObj(m) && (h == Full(m) || h == Empty(m))
             && (IsPcb(c0) ==> k.t.at[c0] == Off)
    requires |x'.boxes| == OBJECTS && x' == k.x.(boxes := x'.boxes, cont := x'.cont) && |x'.cont| == N
    requires y' == k.y.(sent := y'.sent, got := y'.got) && |y'.sent| == |y'.got| == OBJECTS
    requires forall c :: IsPcb(c) ==> x'.cont[c] == if c == c0 then Done else k.x.cont[c]
    requires forall j :: IsObj(j) && j != m ==>
               x'.boxes[j] == k.x.boxes[j] && y'.sent[j] == k.y.sent[j] && y'.got[j] == k.y.got[j]
    requires |x'.boxes[m].buf| <= ROOM && y'.sent[m] == y'.got[m] + x'.boxes[m].buf
    requires h == Empty(m) ==> |x'.boxes[m].buf| >= |k.x.boxes[m].buf|
    requires h == Full(m) ==> |x'.boxes[m].buf| <= |k.x.boxes[m].buf|
    ensures Good(K(WakeAll(k.t, h), x', y')) && Inside(WakeAll(k.t, h), hart) && Calm(k.t, WakeAll(k.t, h))
  {
    hide Inside, Reason, ContOk, Inv, Calm, WakeAll;
    var u, k' := Woken(k, h), K(WakeAll(k.t, h), x', y');
    WokenGood(k, hart, h);
    forall c | IsPcb(c) && k'.t.at[c].On? ensures Reason(k'.t.status, x', k'.t.at[c].h, x'.cont[c]) {
      NotOn(k.t, hart, h, c);
      StillOff(k.t, h, c);
      if k'.t.at[c] == On(Ready) {
        ReadyReason(k'.t.status, x', x'.cont[c]);
      } else {
        BoxReason(u.t.status, k.x, x', m, k'.t.at[c].h, h, k.x.cont[c]);
      }
    }
    forall c | IsPcb(c) ensures ContOk(x', x'.cont[c]) {
      DoneOk(x');
      ContStays(k.x, x', k.x.cont[c]);
    }
    forall l | IsObj(l) ensures OwnedAt(k', l) {
      assert OwnedAt(u, l);
    }
    forall b | IsObj(b) ensures CountedAt(k', b) {
      assert CountedAt(u, b);
    }
  }

  /** Waking moves to the ready queue only those who were waiting. */
  lemma StillOff(t: Tasks, h: Head, c: int)
    requires Sized(t) && IsPcb(c)
    ensures WakeAll(t, h).at[c] == t.at[c] || WakeAll(t, h).at[c] == On(Ready)
  {
  }

  lemma BoxReason(s: seq<Status>, x: Sync, x': Sync, m: int, g: Head, h: Head, co: Cont)
    requires Reason(s, x, g, co) && g != h && x'.locks == x.locks && |x'.bars| == |x.bars| && |x'.conds| == |x.conds|
             && |x'.boxes| == |x.boxes| && 0 <= m < |x.boxes|
    requires forall j :: 0 <= j < |x.boxes| && j != m ==> x'.boxes[j] == x.boxes[j]
    requires (h == Empty(m) && |x'.boxes[m].buf| >= |x.boxes[m].buf|)
             || (h == Full(m) && |x'.boxes[m].buf| <= |x.boxes[m].buf|)
    ensures Reason(s, x', g, co)
  {
  }

  lemma PutGood(k: K, hart: int, m: int, msg: seq<int>)
    requires Good(k) && Stable(k.t) && Busy(k.t, hart) && IsObj(m) && |k.x.boxes[m].buf| + |msg| <= ROOM
    ensures Good(Put(k, hart, m, msg)) && Stable(Put(k, hart, m, msg).t) && Calm(k.t, Put(k, hart, m, msg).t)
  {
    hide Waiting, Owned, Counted, Calm, WakeAll;
    var k' := Put(k, hart, m, msg);
    BoxGood(k, IDLE, Empty(m), k'.x, k'.y, m, k.t.cur[hart]);
  }

  lemma GetGood(k: K, hart: int, m: int, len: int)
    requires Good(k) && Stable(k.t) && Busy(k.t, hart) && IsObj(m) && 0 <= len <= |k.x.boxes[m].buf|
    ensures Good(Get(k, hart, m, len)) && Stable(Get(k, hart, m, len).t) && Calm(k.t, Get(k, hart, m, len).t)
  {
    hide Waiting, Owned, Counted, Calm, WakeAll;
    var k' := Get(k, hart, m, len);
    var buf := k.x.boxes[m].buf;
    assert k.y.got[m] + buf == k.y.got[m] + buf[..len] + buf[len..];
    BoxGood(k, IDLE, Full(m), k'.x, k'.y, m, k.t.cur[hart]);
  }

  /** `do_mbox_open` on a free entry: buffer emptied, both queue heads reset. */
  function BoxOpened(k: K, m: int, name: string): K
    requires Shape(k) && IsObj(m)
  {
    k.(t := Reset(Reset(k.t, Empty(m)), Full(m)), x := k.x.(boxes := k.x.boxes[m := Box(true, name, 1, [])]),
       y := k.y.(sent := k.y.sent[m := []], got := k.y.got[m := []]))
  }

  lemma BoxOpenedGood(k: K, hart: int, m: int, name: string)
    requires Good(k) && Inside(k.t, hart) && IsObj(m) && Q(k.t, Empty(m)) == [] && Q(k.t, Full(m)) == []
    ensures Good(BoxOpened(k, m, name)) && Inside(BoxOpened(k, m, name).t, hart)
  {
    hide Reason, ContOk, Inside;
    ResetInv(k.t, hart, Empty(m));
    ResetInv(Reset(k.t, Empty(m)), hart, Full(m));
    var k' := BoxOpened(k, m, name);
    forall c | IsPcb(c) && k'.t.at[c].On? ensures Reason(k'.t.status, k'.x, k'.t.at[c].h, k'.x.cont[c]) {
      NobodyOn(k.t, hart, Empty(m), c);
      NobodyOn(k.t, hart, Full(m), c);
      OpenReason(k.t.status, k.x, k'.x, m, k.t.at[c].h, k.x.cont[c]);
    }
    forall c | IsPcb(c) ensures ContOk(k'.x, k'.x.cont[c]) {
      ContStays(k.x, k'.x, k.x.cont[c]);
    }
    forall l | IsObj(l) ensures OwnedAt(k', l) {
      assert OwnedAt(k, l);
    }
    forall b | IsObj(b) ensures CountedAt(k', b) {
      assert CountedAt(k, b) && Q(k'.t, Bar(b)) == Q(k.t, Bar(b));
    }
  }

  lemma OpenReason(s: seq<Status>, x: Sync, x': Sync, m: int, g: Head, co: Cont)
    requires Reason(s, x, g, co) && g != Empty(m) && g != Full(m) && x'.locks == x.locks && |x'.bars| == |x.bars|
             && |x'.conds| == |x.conds| && |x'.boxes| == |x.boxes|
    requires forall j :: 0 <= j < |x.boxes| && j != m ==> x'.boxes[j] == x.boxes[j]
    ensures Reason(s, x', g, co)
  {
  }

  // ---------------------------------------------------------------- steps

  /** What a hart may do in one step at time `now`. */
  datatype Op =
    | Tick                                // timer interrupt
    | Resume                              // a process switched to goes on inside its system call
    | Boot(mask: set<int>)                // `main` starting a process from the idle loop
    | Exec
    | ThreadCreate(tid: int)
    | Exit
    | Kill(pid: int)
    | SleepUntil(time: int)
    | Waitpid(pid: int)
    | Join(tid: int)
    | Taskset(pid: int, mask: set<int>)
    | LockInit(key: int)
    | Acquire(l: int)
    | Release(l: int)
    | BarrierInit(goal: int)
    | BarrierWait(b: int)
    | BarrierDestroy(b: int)
    | CondInit
    | CondWait(i: int, l: int)
    | Signal(i: int)
    | Broadcast(i: int)
    | CondDestroy(i: int)
    | Open(name: string)
    | Close(m: int)
    | Send(m: int, msg: seq<int>)
    | Recv(m: int, len: int)

  datatype Event = Event(hart: int, now: int, op: Op)

  /** `do_mutex_lock_acquire`, one turn of its loop. */
  function AcquireStep(k: K, e: Event, l: int): K
    requires Shape(k) && Busy(k.t, e.hart) && IsObj(l)
  {
    if !k.x.locks[l].locked then Taken(k, e.hart, l)
    else Switched(Parked(k, e.hart, Lock(l), Acquiring(l)), e.hart, e.now)
  }

  /** `do_mbox_send`, one turn of its loop. */
  function SendStep(k: K, e: Event, m: int, msg: seq<int>): K
    requires Shape(k) && Busy(k.t, e.hart) && IsObj(m)
  {
    if |k.x.boxes[m].buf| + |msg| <= ROOM then Put(k, e.hart, m, msg)
    else Switched(Parked(k, e.hart, Full(m), Sending(m, msg)), e.hart, e.now)
  }

  /** `do_mbox_recv`, one turn of its loop. */
  function RecvStep(k: K, e: Event, m: int, len: int): K
    requires Shape(k) && Busy(k.t, e.hart) && IsObj(m) && len >= 0
  {
    if |k.x.boxes[m].buf| - len >= 0 then Get(k, e.hart, m, len)
    else Switched(Parked(k, e.hart, Empty(m), Receiving(m, len)), e.hart, e.now)
  }

  function ResumeStep(k: K, e: Event): K
    requires Shape(k) && Busy(k.t, e.hart) && 0 <= k.x.nlocks <= OBJECTS && ContOk(k.x, k.x.cont[k.t.cur[e.hart]])
  {
    match k.x.cont[k.t.cur[e.hart]]
    case Done => k
    case Acquiring(l) => AcquireStep(k, e, l)
    case Sending(m, msg) => SendStep(k, e, m, msg)
    case Receiving(m, len) => RecvStep(k, e, m, len)
  }

  /** `do_mutex_lock_release`, by whoever calls it. */
  function ReleaseStep(k: K, e: Event, l: int): K
    requires Shape(k) && Busy(k.t, e.hart) && IsObj(l)
  {
    LetGo(Unlocked(k, l), l, k.t.cur[e.hart])
  }

  /** `do_condition_wait`: on the condition's queue before the mutex is free. */
  function CondWaitStep(k: K, e: Event, i: int, l: int): K
    requires Shape(k) && Busy(k.t, e.hart) && IsObj(l)
  {
    Switched(LetGo(Unlocked(Parked(k, e.hart, Cond(i), Acquiring(l)), l), l, k.t.cur[e.hart]), e.hart, e.now)
  }

  /** `do_barrier_wait` */
  function BarrierStep(k: K, e: Event, b: int): K
    requires Shape(k) && Busy(k.t, e.hart) && IsObj(b)
  {
    if k.x.bars[b].counter + 1 >= k.x.bars[b].goal then BarFull(k, b)
    else Switched(BarJoin(k, e.hart, b), e.hart, e.now)
  }

  /** `do_exit` */
  function ExitStep(k: K, e: Event): K
    requires Shape(k) && Busy(k.t, e.hart)
  {
    var c := k.t.cur[e.hart];
    Switched(Dead(Unburdened(k, c), c), e.hart, e.now)
  }

  /** `do_kill`: the live processes of the pid in the order of the table, until it comes to the caller. */
  function KillStep(k: K, e: Event, p: int, i: nat): K
    requires Shape(k) && Busy(k.t, e.hart)
    decreases N - i
  {
    if i >= N then k
    else if k.t.status[i] == EXITED || k.x.pid[i] != p then KillStep(k, e, p, i + 1)
    else if i == k.t.cur[e.hart] then ExitStep(k, e)
    else
      var u := Killed(k, i);
      if Shape(u) && Busy(u.t, e.hart) then KillStep(u, e, p, i + 1) else u
  }

  /** The first entry that satisfies P, or the length. */
  function First<T>(s: seq<T>, P: T -> bool): (i: nat)
    ensures i <= |s| && (forall j :: 0 <= j < i ==> !P(s[j])) && (i < |s| ==> P(s[i]))
  {
    if s == [] || P(s[0]) then 0 else 1 + First(s[1..], P)
  }

  /** `get_free_pcb` */
  function FreePcb(k: K): nat {
    First(k.t.status, s => s == EXITED)
  }

  /** `pid_to_pcb_id`, from entry i on; N if there is none. */
  function FindPid(k: K, p: int, i: nat): (r: nat)
    requires Shape(k) && i <= N
    ensures i <= r <= N && (r < N ==> k.t.status[r] != EXITED && k.x.pid[r] == p)
    ensures forall j :: i <= j < r ==> k.t.status[j] == EXITED || k.x.pid[j] != p
    decreases N - i
  {
    if i == N || (k.t.status[i] != EXITED && k.x.pid[i] == p) then i else FindPid(k, p, i + 1)
  }

  /** `search_pthread_pcb` */
  function FindThread(k: K, p: int, tid: int, i: nat): (r: nat)
    requires Shape(k) && i <= N
    ensures i <= r <= N && (r < N ==> k.t.status[r] != EXITED && k.x.pid[r] == p && k.x.tid[r] == tid)
    ensures forall j :: i <= j < r ==> k.t.status[j] == EXITED || k.x.pid[j] != p || k.x.tid[j] != tid
    decreases N - i
  {
    if i == N || (k.t.status[i] != EXITED && k.x.pid[i] == p && k.x.tid[i] == tid) then i
      else FindThread(k, p, tid, i + 1)
  }

  /** `do_waitpid` and `do_pthread_join`, for entry d of the table. */
  function WaitStep(k: K, e: Event, d: int): K
    requires Shape(k) && Busy(k.t, e.hart)
  {
    if d < N then Switched(Parked(k, e.hart, Waiters(d), Done), e.hart, e.now) else k
  }

  /** `do_sleep` */
  function SleepStep(k: K, e: Event, time: int): K
    requires Shape(k) && Busy(k.t, e.hart)
  {
    var c := k.t.cur[e.hart];
    Switched(Parked(k.(t := k.t.(wake := k.t.wake[c := time])), e.hart, Sleep, Done), e.hart, e.now)
  }

  /** `do_exec` */
  function ExecStep(k: K, mask: set<int>): K
    requires Shape(k)
  {
    var i := FreePcb(k);
    if i < N then Started(k.(x := k.x.(lastPid := k.x.lastPid + 1)), i, k.x.lastPid + 1, 0, mask) else k
  }

  /** `do_pthread_create` */
  function ThreadStep(k: K, e: Event, tid: int): K
    requires Shape(k) && Busy(k.t, e.hart)
  {
    var i := FreePcb(k);
    if i < N then Started(k, i, k.x.pid[k.t.cur[e.hart]], tid, k.t.mask[k.t.cur[e.hart]]) else k
  }

  /** `do_mutex_lock_init` */
  function LockInitStep(k: K, key: int): K
    requires Shape(k)
  {
    if 0 <= k.x.nlocks < OBJECTS && First(k.x.locks[..k.x.nlocks], (m: Mutex) => m.key == key) == k.x.nlocks then
      k.(x := k.x.(nlocks := k.x.nlocks + 1, locks := k.x.locks[k.x.nlocks := k.x.locks[k.x.nlocks].(key := key)]))
    else k
  }

  function BarrierInitStep(k: K, goal: int): K
    requires Shape(k)
  {
    var b := First(k.x.bars, (r: Barrier) => !r.active);
    if b < OBJECTS then BarOpened(k, b, goal) else k
  }

  function CondInitStep(k: K): K
    requires Shape(k)
  {
    var i := First(k.x.conds, c => !c);
    if i < OBJECTS then k.(t := Reset(k.t, Cond(i)), x := k.x.(conds := k.x.conds[i := true])) else k
  }

  /** `do_condition_signal` */
  function SignalStep(k: K, i: int): K
    requires Shape(k)
  {
    var q := Q(k.t, Cond(i));
    if q != [] then k.(t := Wake(k.t, Cond(i), q[1..], q[..1])) else k
  }

  function CondDestroyStep(k: K, i: int): K
    requires Shape(k) && IsObj(i)
  {
    Woken(k, Cond(i)).(x := k.x.(conds := k.x.conds[i := false]))
  }

  /** `do_mbox_open` */
  function OpenStep(k: K, name: string): K
    requires Shape(k)
  {
    var m := First(k.x.boxes, (r: Box) => r.active && r.name == name);
    if m < OBJECTS then k.(x := k.x.(boxes := k.x.boxes[m := k.x.boxes[m].(cite := k.x.boxes[m].cite + 1)]))
    else
      var f := First(k.x.boxes, (r: Box) => !r.active);
      if f < OBJECTS then BoxOpened(k, f, name) else k
  }

  /** `do_mbox_close` */
  function CloseStep(k: K, m: int): K
    requires Shape(k) && IsObj(m)
  {
    var r := k.x.boxes[m];
    k.(x := k.x.(boxes := k.x.boxes[m := r.(cite := r.cite - 1, active := r.active && r.cite - 1 > 0)]))
  }

  function TasksetStep(k: K, p: int, mask: set<int>): K
    requires Shape(k)
  {
    var i := FindPid(k, p, 0);
    if i < N then k.(t := k.t.(mask := k.t.mask[i := mask])) else k
  }

  /** What a system call asks of its caller: locks are acquired once initialised, nobody kills a process running on
      the other hart, and an object is initialised anew only when nobody sleeps on it. */
  predicate Proper(k: K, hart: int, op: Op)
    requires Shape(k) && Busy(k.t, hart)
  {
    match op
    case Kill(p) => forall c :: 0 <= c < N && k.t.status[c] == RUNNING && k.x.pid[c] == p ==> c == k.t.cur[hart]
    case Acquire(l) => 0 <= l < k.x.nlocks
    case Release(l) => IsObj(l)
    case BarrierInit(goal) => var b := First(k.x.bars, (r: Barrier) => !r.active); Q(k.t, Bar(b)) == []
    case BarrierWait(b) => IsObj(b)
    case BarrierDestroy(b) => IsObj(b)
    case CondInit => var i := First(k.x.conds, c => !c); Q(k.t, Cond(i)) == []
    case CondWait(i, l) => IsObj(i) && IsObj(l) && l < k.x.nlocks
    case Signal(i) => IsObj(i)
    case Broadcast(i) => IsObj(i)
    case CondDestroy(i) => IsObj(i)
    case Open(_) => var f := First(k.x.boxes, (r: Box) => !r.active); Q(k.t, Empty(f)) == [] && Q(k.t, Full(f)) == []
    case Close(m) => IsObj(m)
    case Send(m, _) => IsObj(m)
    case Recv(m, len) => IsObj(m) && len >= 0
    case _ => true
  }

  /** A tick may come at any time, a continuation only to a process that has one, a system call from any other. */
  predicate Enabled(k: K, e: Event)
    requires Shape(k)
  {
    && IsHart(e.hart) && 0 <= k.x.nlocks <= OBJECTS
    && (e.op == Tick || (e.op.Boot? && k.t.cur[e.hart] == IDLE) ||
        (Busy(k.t, e.hart) && var co := k.x.cont[k.t.cur[e.hart]];
                              if e.op == Resume then co != Done && ContOk(k.x, co)
                              else !e.op.Boot? && co == Done && Proper(k, e.hart, e.op)))
  }

  function Apply(k: K, e: Event): K
    requires Shape(k) && Enabled(k, e)
  {
    match e.op
    case Tick => Switched(k, e.hart, e.now)
    case Resume => ResumeStep(k, e)
    case Boot(mask) => ExecStep(k, mask)
    case Exec => ExecStep(k, k.t.mask[k.t.cur[e.hart]])
    case ThreadCreate(tid) => ThreadStep(k, e, tid)
    case Exit => ExitStep(k, e)
    case Kill(p) => KillStep(k, e, p, 0)
    case SleepUntil(time) => SleepStep(k, e, time)
    case Waitpid(p) => WaitStep(k, e, FindPid(k, p, 0))
    case Join(tid) => WaitStep(k, e, FindThread(k, k.x.pid[k.t.cur[e.hart]], tid, 0))
    case Taskset(p, mask) => TasksetStep(k, p, mask)
    case LockInit(key) => LockInitStep(k, key)
    case Acquire(l) => AcquireStep(k, e, l)
    case Release(l) => ReleaseStep(k, e, l)
    case BarrierInit(goal) => BarrierInitStep(k, goal)
    case BarrierWait(b) => BarrierStep(k, e, b)
    case BarrierDestroy(b) => BarClosed(k, b)
    case CondInit => CondInitStep(k)
    case CondWait(i, l) => CondWaitStep(k, e, i, l)
    case Signal(i) => SignalStep(k, i)
    case Broadcast(i) => Woken(k, Cond(i))
    case CondDestroy(i) => CondDestroyStep(k, i)
    case Open(name) => OpenStep(k, name)
    case Close(m) => CloseStep(k, m)
    case Send(m, msg) => SendStep(k, e, m, msg)
    case Recv(m, len) => RecvStep(k, e, m, len)
  }

  // ---------------------------------------------------------------- every step keeps the invariant

  /** What holds whenever no hart is inside the kernel. */
  ghost predicate Sane(k: K) {
    Good(k) && Stable(k.t)
  }

  lemma Enter(t: Tasks, hart: int)
    requires Stable(t)
    ensures Inside(t, hart)
  {
  }

  /** Blocking for a reason and switching away. */
  lemma ParkSane(k: K, e: Event, h: Head, co: Cont)
    requires Sane(k) && Busy(k.t, e.hart) && h != Ready && !h.Bar? && Reason(k.t.status, k.x, h, co) && ContOk(k.x, co)
    ensures Shape(Parked(k, e.hart, h, co)) && Sane(Switched(Parked(k, e.hart, h, co), e.hart, e.now))
  {
    hide Inside, Reason, ContOk, Waiting, Owned, Counted, Streams;
    Enter(k.t, e.hart);
    ParkedGood(k, e.hart, h, co);
    SwitchedGood(Parked(k, e.hart, h, co), e.hart, e.now);
  }

  lemma AcquireSane(k: K, e: Event, l: int)
    requires Sane(k) && Busy(k.t, e.hart) && IsObj(l) && l < k.x.nlocks
    ensures Sane(AcquireStep(k, e, l))
  {
    hide Inside, Waiting, Owned, Counted, Streams;
    if k.x.locks[l].locked {
      ParkSane(k, e, Lock(l), Acquiring(l));
    } else {
      TakenGood(k, IDLE, e.hart, l);
    }
  }

  lemma SendSane(k: K, e: Event, m: int, msg: seq<int>)
    requires Sane(k) && Busy(k.t, e.hart) && IsObj(m)
    ensures Sane(SendStep(k, e, m, msg))
  {
    hide Inside, Waiting, Owned, Counted, Streams;
    if |k.x.boxes[m].buf| + |msg| <= ROOM {
      PutGood(k, e.hart, m, msg);
    } else {
      ParkSane(k, e, Full(m), Sending(m, msg));
    }
  }

  lemma RecvSane(k: K, e: Event, m: int, len: int)
    requires Sane(k) && Busy(k.t, e.hart) && IsObj(m) && len >= 0
    ensures Sane(RecvStep(k, e, m, len))
  {
    hide Inside, Waiting, Owned, Counted, Streams;
    if |k.x.boxes[m].buf| - len >= 0 {
      GetGood(k, e.hart, m, len);
    } else {
      ParkSane(k, e, Empty(m), Receiving(m, len));
    }
  }

  lemma ReleaseSane(k: K, e: Event, l: int)
    requires Sane(k) && Busy(k.t, e.hart) && IsObj(l)
    ensures Sane(ReleaseStep(k, e, l)) && Calm(k.t, ReleaseStep(k, e, l).t)
  {
    hide Inside, Waiting, Owned, Counted, Streams, Calm, WakeAll;
    UnlockedGood(k, IDLE, l);
    LetGoGood(Unlocked(k, l), l, k.t.cur[e.hart]);
  }

  lemma CondWaitSane(k: K, e: Event, i: int, l: int)
    requires Sane(k) && Busy(k.t, e.hart) && IsObj(i) && IsObj(l) && l < k.x.nlocks
    ensures Sane(CondWaitStep(k, e, i, l))
  {
    hide Inside, Waiting, Owned, Counted, Streams;
    Enter(k.t, e.hart);
    var u := Parked(k, e.hart, Cond(i), Acquiring(l));
    ParkedGood(k, e.hart, Cond(i), Acquiring(l));
    UnlockedGood(u, e.hart, l);
    LetGoGood(Unlocked(u, l), l, k.t.cur[e.hart]);
    SwitchedGood(LetGo(Unlocked(u, l), l, k.t.cur[e.hart]), e.hart, e.now);
  }

  lemma BarrierSane(k: K, e: Event, b: int)
    requires Sane(k) && Busy(k.t, e.hart) && IsObj(b)
    ensures Sane(BarrierStep(k, e, b))
  {
    hide Inside, Waiting, Owned, Counted, Streams;
    if k.x.bars[b].counter + 1 >= k.x.bars[b].goal {
      BarFullGood(k, IDLE, b);
    } else {
      Enter(k.t, e.hart);
      BarJoinGood(k, e.hart, b);
      SwitchedGood(BarJoin(k, e.hart, b), e.hart, e.now);
    }
  }

  lemma ExitSane(k: K, e: Event)
    requires Good(k) && Inside(k.t, e.hart) && Busy(k.t, e.hart)
    ensures Sane(ExitStep(k, e))
  {
    hide Waiting, Owned, Counted, Streams, Queued;
    var c := k.t.cur[e.hart];
    var u := Unburdened(k, c);
    UnburdenedGood(k, e.hart, c);
    DeadGood(u, e.hart, c);
    SwitchedGood(Dead(u, c), e.hart, e.now);
  }

  lemma {:induction false} KillSane(k: K, e: Event, p: int, i: nat)
    requires Sane(k) && Busy(k.t, e.hart)
    requires forall c :: IsPcb(c) && k.t.status[c] == RUNNING && k.x.pid[c] == p ==> c == k.t.cur[e.hart]
    ensures Sane(KillStep(k, e, p, i))
    decreases N - i
  {
    hide Waiting, Owned, Counted, Streams, Queued, Killed, ExitStep;
    if i >= N {
    } else if k.t.status[i] == EXITED || k.x.pid[i] != p {
      KillSane(k, e, p, i + 1);
    } else if i == k.t.cur[e.hart] {
      Enter(k.t, e.hart);
      ExitSane(k, e);
    } else {
      KilledGood(k, IDLE, i);
      KillSane(Killed(k, i), e, p, i + 1);
    }
  }

  lemma WaitSane(k: K, e: Event, d: nat)
    requires Sane(k) && Busy(k.t, e.hart) && (d < N ==> k.t.status[d] != EXITED)
    ensures Sane(WaitStep(k, e, d))
  {
    hide Inside, Waiting, Owned, Counted, Streams;
    if d < N {
      ParkSane(k, e, Waiters(d), Done);
    }
  }

  lemma SleepSane(k: K, e: Event, time: int)
    requires Sane(k) && Busy(k.t, e.hart)
    ensures Sane(SleepStep(k, e, time))
  {
    hide Waiting, Owned, Counted, Streams, Queued;
    var u := k.(t := k.t.(wake := k.t.wake[k.t.cur[e.hart] := time]));
    QueuedSame(k.t, u.t);
    SameEases(k.t, u.t);
    EasesGood(k, u.t);
    ParkSane(u, e, Sleep, Done);
  }

  lemma SameEases(t: Tasks, t': Tasks)
    requires Sized(t) && Sized(t') && t'.at == t.at && t'.status == t.status && t'.q == t.q
    ensures Eases(t, t')
  {
  }

  lemma FreePcbIs(k: K)
    requires Shape(k)
    ensures FreePcb(k) <= N && (FreePcb(k) < N ==> k.t.status[FreePcb(k)] == EXITED)
    ensures FreePcb(k) == N ==> forall j :: IsPcb(j) ==> k.t.status[j] != EXITED
  {
  }

  lemma ExecSane(k: K, mask: set<int>)
    requires Sane(k)
    ensures Sane(ExecStep(k, mask))
  {
    hide Waiting, Owned, Counted, Streams, Inside, FreePcb;
    FreePcbIs(k);
    if FreePcb(k) < N {
      var x' := k.x.(lastPid := k.x.lastPid + 1);
      SyncGood(k, x');
      StartedGood(k.(x := x'), IDLE, FreePcb(k), k.x.lastPid + 1, 0, mask);
    }
  }

  lemma ThreadSane(k: K, e: Event, tid: int)
    requires Sane(k) && Busy(k.t, e.hart)
    ensures Sane(ThreadStep(k, e, tid))
  {
    hide Waiting, Owned, Counted, Streams, Inside, FreePcb;
    FreePcbIs(k);
    if FreePcb(k) < N {
      StartedGood(k, IDLE, FreePcb(k), k.x.pid[k.t.cur[e.hart]], tid, k.t.mask[k.t.cur[e.hart]]);
    }
  }

  /** Changes that concern neither the owners, the counters nor the contents. */
  lemma SyncGood(k: K, x': Sync)
    requires Good(k) && x'.pid == k.x.pid && |x'.tid| == N && x'.cont == k.x.cont && x'.bars == k.x.bars
             && |x'.conds| == OBJECTS
    requires |x'.locks| == |x'.boxes| == OBJECTS && (x'.nlocks == k.x.nlocks || k.x.nlocks <= x'.nlocks <= OBJECTS)
    requires forall l :: IsObj(l) ==>
               x'.locks[l].locked == k.x.locks[l].locked && x'.locks[l].owner == k.x.locks[l].owner
    requires forall m :: IsObj(m) ==> x'.boxes[m].buf == k.x.boxes[m].buf
    ensures Good(k.(x := x'))
  {
    hide Reason, ContOk;
    var k' := k.(x := x');
    forall c | IsPcb(c) && k'.t.at[c].On? ensures Reason(k'.t.status, x', k'.t.at[c].h, x'.cont[c]) {
      SyncReason(k.t.status, k.x, x', k.t.at[c].h, k.x.cont[c]);
    }
    forall c | IsPcb(c) ensures ContOk(x', x'.cont[c]) {
      ContStays(k.x, x', k.x.cont[c]);
    }
    forall l | IsObj(l) ensures OwnedAt(k', l) {
      assert OwnedAt(k, l);
    }
    forall b | IsObj(b) ensures CountedAt(k', b) {
      assert CountedAt(k, b);
    }
  }

  lemma SyncReason(s: seq<Status>, x: Sync, x': Sync, h: Head, co: Cont)
    requires Reason(s, x, h, co) && |x'.bars| == |x.bars| && |x'.conds| == |x.conds|
             && |x.locks| == |x'.locks| == |x.boxes| == |x'.boxes| == OBJECTS
    requires forall l :: IsObj(l) ==> x'.locks[l].locked == x.locks[l].locked
    requires forall m :: IsObj(m) ==> x'.boxes[m].buf == x.boxes[m].buf
    ensures Reason(s, x', h, co)
  {
  }

  lemma OpenSane(k: K, e: Event, name: string)
    requires Sane(k) && var f := First(k.x.boxes, (r: Box) => !r.active);
             Q(k.t, Empty(f)) == [] && Q(k.t, Full(f)) == []
    ensures Sane(OpenStep(k, name))
  {
    hide Waiting, Owned, Counted, Streams, Inside;
    var m := First(k.x.boxes, (r: Box) => r.active && r.name == name);
    var f := First(k.x.boxes, (r: Box) => !r.active);
    if m < OBJECTS {
      SyncGood(k, OpenStep(k, name).x);
    } else if f < OBJECTS {
      BoxOpenedGood(k, IDLE, f, name);
    }
  }

  lemma ResetEases(t: Tasks, h: Head)
    requires Sized(t) && !h.Bar?
    ensures Eases(t, Reset(t, h))
  {
  }

  lemma SignalSane(k: K, i: int)
    requires Sane(k)
    ensures Sane(SignalStep(k, i)) && Calm(k.t, SignalStep(k, i).t)
  {
    hide Waiting, Owned, Counted, Streams, Inside, Calm, Wake, Eases;
    var q := Q(k.t, Cond(i));
    if q != [] {
      WakeCalm(k.t, IDLE, Cond(i), 1);
      WakeEases(k.t, Cond(i), q[1..], q[..1]);
      EasesGood(k, Wake(k.t, Cond(i), q[1..], q[..1]));
    } else {
      CalmSelf(k.t);
    }
  }

  lemma WakeSane(k: K, i: int)
    requires Sane(k) && IsObj(i)
    ensures Sane(Woken(k, Cond(i))) && Sane(CondDestroyStep(k, i)) && Calm(k.t, Woken(k, Cond(i)).t)
  {
    hide Waiting, Owned, Counted, Streams, Inside, Calm, WakeAll;
    WokenGood(k, IDLE, Cond(i));
    SyncGood(Woken(k, Cond(i)), k.x.(conds := k.x.conds[i := false]));
  }

  lemma TasksetSane(k: K, p: int, mask: set<int>)
    requires Sane(k)
    ensures Sane(TasksetStep(k, p, mask))
  {
    hide Waiting, Owned, Counted, Streams, Queued;
    var t' := TasksetStep(k, p, mask).t;
    QueuedSame(k.t, t');
    SameEases(k.t, t');
    EasesGood(k, t');
  }

  lemma LockInitSane(k: K, key: int)
    requires Sane(k)
    ensures Sane(LockInitStep(k, key))
  {
    hide Waiting, Owned, Counted, Streams, Inside;
    SyncGood(k, LockInitStep(k, key).x);
  }

  lemma BarrierInitSane(k: K, goal: int)
    requires Sane(k) && var b := First(k.x.bars, (r: Barrier) => !r.active); Q(k.t, Bar(b)) == []
    ensures Sane(BarrierInitStep(k, goal))
  {
    hide Waiting, Owned, Counted, Streams, Inside;
    var b := First(k.x.bars, (r: Barrier) => !r.active);
    if b < OBJECTS {
      BarOpenedGood(k, IDLE, b, goal);
    }
  }

  lemma CondInitSane(k: K)
    requires Sane(k) && var i := First(k.x.conds, c => !c); Q(k.t, Cond(i)) == []
    ensures Sane(CondInitStep(k))
  {
    hide Waiting, Owned, Counted, Streams, Inside;
    var i := First(k.x.conds, c => !c);
    if i < OBJECTS {
      ResetInv(k.t, IDLE, Cond(i));
      ResetEases(k.t, Cond(i));
      EasesGood(k, Reset(k.t, Cond(i)));
      SyncGood(k.(t := Reset(k.t, Cond(i))), k.x.(conds := k.x.conds[i := true]));
    }
  }

  lemma CloseSane(k: K, m: int)
    requires Sane(k) && IsObj(m)
    ensures Sane(CloseStep(k, m))
  {
    hide Waiting, Owned, Counted, Streams, Inside;
    SyncGood(k, CloseStep(k, m).x);
  }

  lemma ResumeSane(k: K, e: Event)
    requires Sane(k) && Busy(k.t, e.hart) && 0 <= k.x.nlocks <= OBJECTS && ContOk(k.x, k.x.cont[k.t.cur[e.hart]])
    ensures Sane(ResumeStep(k, e))
  {
    hide Waiting, Owned, Counted, Streams, Inside, AcquireStep, SendStep, RecvStep;
    match k.x.cont[k.t.cur[e.hart]]
    case Done =>
    case Acquiring(l) => AcquireSane(k, e, l);
    case Sending(m, msg) => SendSane(k, e, m, msg);
    case Receiving(m, len) => RecvSane(k, e, m, len);
  }

  predicate TaskOp(op: Op) {
    op.Exec? || op.ThreadCreate? || op.Exit? || op.Kill? || op.SleepUntil? || op.Waitpid? || op.Join? || op.Taskset?
  }

  lemma TaskSane(k: K, e: Event)
    requires Sane(k) && Enabled(k, e) && TaskOp(e.op)
    ensures Sane(Apply(k, e))
  {
    hide Waiting, Owned, Counted, Streams, Inside, ExitStep, KillStep, WaitStep, SleepStep, ExecStep, ThreadStep,
         TasksetStep;
    match e.op
    case Exec => ExecSane(k, k.t.mask[k.t.cur[e.hart]]);
    case ThreadCreate(tid) => ThreadSane(k, e, tid);
    case Exit =>
      Enter(k.t, e.hart);
      ExitSane(k, e);
    case Kill(p) => KillSane(k, e, p, 0);
    case SleepUntil(time) => SleepSane(k, e, time);
    case Waitpid(p) => WaitSane(k, e, FindPid(k, p, 0));
    case Join(tid) => WaitSane(k, e, FindThread(k, k.x.pid[k.t.cur[e.hart]], tid, 0));
    case Taskset(p, mask) => TasksetSane(k, p, mask);
  }

  predicate BoxOp(op: Op) {
    op.Open? || op.Close? || op.Send? || op.Recv?
  }

  lemma BoxSane(k: K, e: Event)
    requires Sane(k) && Enabled(k, e) && BoxOp(e.op)
    ensures Sane(Apply(k, e))
  {
    hide Waiting, Owned, Counted, Streams, Inside, SendStep, RecvStep, OpenStep, CloseStep;
    match e.op
    case Open(name) => OpenSane(k, e, name);
    case Close(m) => CloseSane(k, m);
    case Send(m, msg) => SendSane(k, e, m, msg);
    case Recv(m, len) => RecvSane(k, e, m, len);
  }

  predicate BarrierOp(op: Op) {
    op.BarrierInit? || op.BarrierWait? || op.BarrierDestroy?
  }

  lemma BarriersSane(k: K, e: Event)
    requires Sane(k) && Enabled(k, e) && BarrierOp(e.op)
    ensures Sane(Apply(k, e))
  {
    hide Waiting, Owned, Counted, Streams, Inside, BarrierStep, BarrierInitStep, BarClosed;
    match e.op
    case BarrierInit(goal) => BarrierInitSane(k, goal);
    case BarrierWait(b) => BarrierSane(k, e, b);
    case BarrierDestroy(b) => BarClosedGood(k, IDLE, b);
  }

  /** One step from a sane state leads to a sane state. */
  lemma StepSane(k: K, e: Event)
    requires Sane(k) && Enabled(k, e)
    ensures Sane(Apply(k, e))
  {
    hide Waiting, Owned, Counted, Streams, Inside, AcquireStep, CondWaitStep, LockInitStep, CondInitStep, SignalStep,
         CondDestroyStep, ResumeStep, ExecStep, Switched, ReleaseStep, Woken;
    if TaskOp(e.op) {
      TaskSane(k, e);
    } else if BoxOp(e.op) {
      BoxSane(k, e);
    } else if BarrierOp(e.op) {
      BarriersSane(k, e);
    } else {
      match e.op
      case Tick =>
        Enter(k.t, e.hart);
        SwitchedGood(k, e.hart, e.now);
      case Resume => ResumeSane(k, e);
      case Boot(mask) => ExecSane(k, mask);
      case LockInit(key) => LockInitSane(k, key);
      case Acquire(l) => AcquireSane(k, e, l);
      case Release(l) => ReleaseSane(k, e, l);
      case CondInit => CondInitSane(k);
      case CondWait(i, l) => CondWaitSane(k, e, i, l);
      case Signal(i) => SignalSane(k, i);
      case Broadcast(i) => WakeSane(k, i);
      case CondDestroy(i) => WakeSane(k, i);
    }
  }
}
