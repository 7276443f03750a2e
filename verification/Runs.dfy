/** What every run of the scheduler and the synchronisation calls keeps. */
module Runs {
  import opened Rings
  import opened Sched
  import opened Syscalls

  // ---------------------------------------------------------------- runs

  ghost predicate IsRun(k: K, es: seq<Event>)
    decreases |es|
  {
    es == [] || (Shape(k) && Enabled(k, es[0]) && IsRun(Apply(k, es[0]), es[1..]))
  }

  ghost function Final(k: K, es: seq<Event>): K
    requires IsRun(k, es)
    decreases |es|
  {
    if es == [] then k else Final(Apply(k, es[0]), es[1..])
  }

  /** The state `main` starts from: every entry of the table free, both harts idle. */
  function Boots(masks: seq<set<int>>, wake: seq<int>, pid: seq<int>, tid: seq<int>, heads: set<Head>): K
    requires |masks| == |wake| == |pid| == |tid| == N
  {
    K(Tasks(seq(N, c => EXITED), [IDLE, IDLE], seq(N, c => 0), wake, masks, map h | h in heads :: [], seq(N, c => Off)),
      Sync(pid, tid, seq(N, c => Done), 0, seq(OBJECTS, l => Mutex(false, 0, 0)), 0,
           seq(OBJECTS, b => Barrier(false, 0, 0)),
           seq(OBJECTS, i => false), seq(OBJECTS, m => Box(false, "", 0, []))),
      Past(seq(OBJECTS, l => 0), seq(OBJECTS, l => {}), seq(OBJECTS, b => 0), seq(OBJECTS, b => 0),
           seq(OBJECTS, b => 0),
           seq(OBJECTS, m => []), seq(OBJECTS, m => [])))
  }

  lemma BootSane(masks: seq<set<int>>, wake: seq<int>, pid: seq<int>, tid: seq<int>, heads: set<Head>)
    requires |masks| == |wake| == |pid| == |tid| == N
    ensures Sane(Boots(masks, wake, pid, tid, heads))
  {
    var k := Boots(masks, wake, pid, tid, heads);
    assert forall h :: Q(k.t, h) == [];
  }

  /** Every state of every run is sane. */
  lemma {:induction false} RunSane(k: K, es: seq<Event>)
    requires Sane(k) && IsRun(k, es)
    ensures Sane(Final(k, es))
    decreases |es|
  {
    hide Apply, Enabled, Good, Stable;
    if es != [] {
      StepSane(k, es[0]);
      RunSane(Apply(k, es[0]), es[1..]);
    }
  }

  // ---------------------------------------------------------------- what a sane state says

  /** READY exactly on the ready queue, BLOCKED exactly on one wait queue, RUNNING or EXITED on none. */
  lemma PlaceByStatus(k: K, c: int)
    requires Sane(k) && IsPcb(c)
    ensures k.t.status[c] == READY <==> c in Q(k.t, Ready)
    ensures k.t.status[c] == BLOCKED <==> exists h :: h != Ready && c in Q(k.t, h)
    ensures forall g, h :: c in Q(k.t, g) && c in Q(k.t, h) ==> g == h
    ensures k.t.status[c] == RUNNING || k.t.status[c] == EXITED <==> forall h :: c !in Q(k.t, h)
    ensures k.t.status[c] == EXITED ==> Q(k.t, Waiters(c)) == []
  {
    var w := k.t.at[c];
    if w.On? {
      assert c in Q(k.t, w.h);
    }
    if k.t.status[c] == EXITED {
      NoWaiters(k, IDLE, c);
    }
  }

  /** Two harts never run the same process, and a process runs on the hart it says. */
  lemma OneHartEach(k: K, g: int, h: int)
    requires Sane(k) && IsHart(g) && IsHart(h) && k.t.cur[g] != IDLE && k.t.cur[g] == k.t.cur[h]
    ensures g == h
  {
  }

  /** A LOCKED lock has a living owner, and only then does anybody wait: no exit, kill or release orphans a lock. */
  lemma LockedIsAlive(k: K, l: int)
    requires Sane(k) && IsObj(l)
    ensures k.x.locks[l].locked ==> exists c :: IsPcb(c) && k.t.status[c] != EXITED && k.x.pid[c] == k.x.locks[l].owner
    ensures Q(k.t, Lock(l)) != [] ==> k.x.locks[l].locked
  {
    assert OwnedAt(k, l);
    if Q(k.t, Lock(l)) != [] {
      OfQueue(k.t, Lock(l), 0);
      assert Reason(k.t.status, k.x, Lock(l), k.x.cont[Q(k.t, Lock(l))[0]]);
    }
  }

  /** A sleeping sender still lacks room, a sleeping receiver still lacks data. */
  lemma NoMissedWakeup(k: K, m: int, c: int)
    requires Sane(k) && IsObj(m) && IsPcb(c)
    ensures c in Q(k.t, Full(m)) ==>
              k.x.cont[c].Sending? && k.x.cont[c].m == m && |k.x.boxes[m].buf| + |k.x.cont[c].msg| > ROOM
    ensures c in Q(k.t, Empty(m)) ==>
              k.x.cont[c].Receiving? && k.x.cont[c].m == m && |k.x.boxes[m].buf| < k.x.cont[c].len
    ensures |k.x.boxes[m].buf| <= ROOM && k.y.sent[m] == k.y.got[m] + k.x.boxes[m].buf
  {
    if c in Q(k.t, Full(m)) || c in Q(k.t, Empty(m)) {
      assert k.t.at[c].On? && Reason(k.t.status, k.x, k.t.at[c].h, k.x.cont[c]);
    }
  }

  /** A barrier with no killed waiter has as many arrivals as whole rounds and sleepers. */
  lemma BarrierCounts(k: K, b: int)
    requires Sane(k) && IsObj(b) && k.x.bars[b].active && k.x.bars[b].goal >= 1
    ensures k.x.bars[b].counter < k.x.bars[b].goal
    ensures k.y.arrived[b] == k.x.bars[b].goal * k.y.rounds[b] + k.x.bars[b].counter
    ensures k.x.bars[b].counter == |Q(k.t, Bar(b))| <==> k.y.lost[b] == 0
  {
    assert CountedAt(k, b);
  }

  // ---------------------------------------------------------------- who leaves a queue, and when

  /** What a step does to those asleep on a condition or a mailbox. */
  datatype Cause = NoCause | Signals(i: int) | Takes(m: int, len: int) | Gives(m: int, len: int)

  /** What lets a process leave queue h before its wake-up time: the process waited for has exited (d0 is about to),
      the lock is free, the condition was signalled, the round is complete or the barrier gone, a receive has made the
      mailbox emptier by exactly what it took, or a send fuller by exactly what it gave. */
  ghost predicate Excused(k: K, k': K, ca: Cause, d0: int, h: Head)
    requires Shape(k) && Shape(k')
  {
    match h
    case Ready => true
    case Sleep => false
    case Waiters(d) => d == d0 || (IsPcb(d) && k'.t.status[d] == EXITED)
    case Lock(l) => IsObj(l) && !k'.x.locks[l].locked
    case Cond(j) => ca == Signals(j)
    case Bar(b) => IsObj(b) && (k'.y.rounds[b] == k.y.rounds[b] + 1 || !k'.x.bars[b].active)
    case Full(m) => IsObj(m) && ca.Takes? && ca.m == m && |k'.x.boxes[m].buf| == |k.x.boxes[m].buf| - ca.len
    case Empty(m) => IsObj(m) && ca.Gives? && ca.m == m && |k'.x.boxes[m].buf| == |k.x.boxes[m].buf| + ca.len
  }

  /** Everybody who left a queue was excused, was due, or is dead. */
  ghost predicate Loyal(k: K, k': K, ca: Cause, d0: int, now: int) {
    && Shape(k) && Shape(k')
    && forall c :: IsPcb(c) && k.t.at[c].On? && k'.t.at[c] != k.t.at[c] ==>
         || k'.t.status[c] == EXITED || (k.t.at[c].h == Sleep && k.t.wake[c] <= now)
            || Excused(k, k', ca, d0, k.t.at[c].h)
  }

  /** What excuses earlier departures stays. */
  ghost predicate Persists(k: K, k': K) {
    && Shape(k) && Shape(k')
    && (forall c :: IsPcb(c) && k.t.status[c] == EXITED ==> k'.t.status[c] == EXITED)
    && (forall l :: IsObj(l) && !k.x.locks[l].locked ==> !k'.x.locks[l].locked)
    && k'.x.bars == k.x.bars && k'.y.rounds == k.y.rounds && k'.t.wake == k.t.wake
  }

  lemma LoyalTrans(k: K, u: K, v: K, d0: int, now: int)
    requires Loyal(k, u, NoCause, d0, now) && Loyal(u, v, NoCause, d0, now) && Persists(u, v) && u.t.wake == k.t.wake
    ensures Loyal(k, v, NoCause, d0, now)
  {
    forall c | IsPcb(c) && k.t.at[c].On? && v.t.at[c] != k.t.at[c]
      ensures v.t.status[c] == EXITED || (k.t.at[c].h == Sleep && k.t.wake[c] <= now)
              || Excused(k, v, NoCause, d0, k.t.at[c].h)
    {
      if u.t.at[c] == k.t.at[c] {
        assert v.t.at[c] != u.t.at[c];
      }
    }
  }

  /** Only `h` and, when due, sleepers were left. */
  ghost predicate Moves(t: Tasks, t': Tasks, now: int) {
    && Sized(t) && Sized(t')
    && (forall c :: IsPcb(c) && t.at[c].On? && t.at[c].h != Ready ==>
          t'.at[c] == t.at[c] || (t.at[c].h == Sleep && t.wake[c] <= now))
    && (forall c :: IsPcb(c) && t.status[c] == EXITED ==> t'.status[c] == EXITED)
    && t'.wake == t.wake
  }

  lemma MovesLoyal(k: K, k': K, ca: Cause, d0: int, now: int)
    requires Shape(k) && Shape(k') && Moves(k.t, k'.t, now)
    ensures Loyal(k, k', ca, d0, now)
  {
  }

  lemma DispatchMoves(t: Tasks, hart: int, now: int)
    requires Inside(t, hart) && IsHart(hart)
    ensures Moves(t, Dispatch(t, hart, now), now)
  {
    hide Next, Queued, Distinct;
    DistinctQ(t, Sleep);
    DueSplits(t.wake, Q(t, Sleep), now);
    var u := WakeDue(t, now);
    DueInv(t, hart, now);
    MembersAt(t, Sleep, Due(t.wake, Q(t, Sleep), now));
    NextMoves(u, hart);
  }

  lemma DistinctQ(t: Tasks, h: Head)
    requires Queued(t)
    ensures Distinct(Q(t, h))
  {
  }

  lemma NextMoves(t: Tasks, hart: int)
    requires Inside(t, hart) && IsHart(hart)
    ensures var t' := Next(t, hart);
            && Sized(t') && t'.wake == t.wake
            && (forall c :: IsPcb(c) && t.at[c].On? && t.at[c].h != Ready ==> t'.at[c] == t.at[c])
            && (forall c :: IsPcb(c) && t.status[c] == EXITED ==> t'.status[c] == EXITED)
  {
    hide Pick, Queued, Without;
    var u := Yielded(t, hart);
    YieldedInv(t, hart);
    var i := Pick(u, Q(u, Ready), hart);
    if i < |Q(u, Ready)| {
      DequeueQueued(u, Ready, i);
    }
  }

  /** Switching away. */
  lemma SwitchLoyal(k: K, u: K, e: Event, d0: int)
    requires Loyal(k, u, NoCause, d0, e.now) && u.t.wake == k.t.wake && Inside(u.t, e.hart) && IsHart(e.hart)
    ensures Loyal(k, Switched(u, e.hart, e.now), NoCause, d0, e.now)
    ensures forall c :: IsPcb(c) && u.t.status[c] == EXITED ==> Switched(u, e.hart, e.now).t.status[c] == EXITED
  {
    hide Excused, Dispatch, Inside;
    DispatchMoves(u.t, e.hart, e.now);
    var v := Switched(u, e.hart, e.now);
    MovesLoyal(u, v, NoCause, d0, e.now);
    LoyalTrans(k, u, v, d0, e.now);
  }

  lemma ParkLoyal(k: K, e: Event, h: Head, co: Cont)
    requires Sane(k) && Busy(k.t, e.hart) && h != Ready && !h.Bar? && Reason(k.t.status, k.x, h, co) && ContOk(k.x, co)
    ensures Shape(Parked(k, e.hart, h, co)) && Loyal(k, Switched(Parked(k, e.hart, h, co), e.hart, e.now), NoCause,
                                                     IDLE, e.now)
  {
    hide Waiting, Owned, Counted, Streams, Queued, Excused, Reason, ContOk;
    Enter(k.t, e.hart);
    ParkedGood(k, e.hart, h, co);
    var u := Parked(k, e.hart, h, co);
    MovesLoyal(k, u, NoCause, IDLE, e.now);
    SwitchLoyal(k, u, e, IDLE);
  }

  /** Waking all of h when that is excused. */
  lemma WakeLoyal(k: K, k': K, h: Head, ca: Cause, d0: int, now: int)
    requires Shape(k) && Shape(k') && Queued(k.t) && k'.t == WakeAll(k.t, h) && Excused(k, k', ca, d0, h)
    ensures Loyal(k, k', ca, d0, now)
  {
    hide Excused;
    MembersAt(k.t, h, Q(k.t, h));
  }

  lemma {:induction false} ReleasedLoyal(k: K, hart: int, p: int, j: nat, d0: int, now: int)
    requires Good(k) && Inside(k.t, hart)
    ensures Loyal(k, Released(k, p, j), NoCause, d0, now) && Persists(k, Released(k, p, j))
    decreases OBJECTS - j
  {
    hide Waiting, Owned, Counted, Streams, Inside, Excused;
    if j >= k.x.nlocks || j >= OBJECTS {
    } else if k.x.locks[j].locked && k.x.locks[j].owner == p {
      var u := Unlocked(k, j);
      UnlockedGood(k, hart, j);
      UnlockLoyal(k, hart, j, d0, now);
      ReleasedLoyal(u, hart, p, j + 1, d0, now);
      LoyalTrans(k, u, Released(u, p, j + 1), d0, now);
    } else {
      ReleasedLoyal(k, hart, p, j + 1, d0, now);
    }
  }

  lemma UnlockLoyal(k: K, hart: int, l: int, d0: int, now: int)
    requires Good(k) && Inside(k.t, hart) && IsObj(l)
    ensures Loyal(k, Unlocked(k, l), NoCause, d0, now) && Persists(k, Unlocked(k, l))
  {
    hide Waiting, Owned, Counted, Streams, Queued, Calm, Loyal, WakeAll;
    WakeAllCalm(k.t, hart, Lock(l));
    CalmLives(k.t, WakeAll(k.t, Lock(l)));
    WakeLoyal(k, Unlocked(k, l), Lock(l), NoCause, d0, now);
  }

  lemma CalmLives(t: Tasks, t': Tasks)
    requires Calm(t, t')
    ensures Sized(t) && Sized(t') && t'.wake == t.wake
    ensures forall c :: IsPcb(c) ==> (t'.status[c] == EXITED <==> t.status[c] == EXITED)
  {
  }

  /** Everything `do_exit` and `do_kill` wake for process c before it dies. */
  lemma UnburdenLoyal(k: K, hart: int, c: int, now: int)
    requires Good(k) && Inside(k.t, hart) && IsPcb(c)
    ensures Loyal(k, Unburdened(k, c), NoCause, c, now) && Persists(k, Unburdened(k, c))
  {
    hide Waiting, Owned, Counted, Streams, Queued, Calm, Loyal, WakeAll;
    var u := Woken(k, Waiters(c));
    WakeAllCalm(k.t, hart, Waiters(c));
    CalmLives(k.t, u.t);
    WakeLoyal(k, u, Waiters(c), NoCause, c, now);
    PersistsWoken(k, u);
    WokenGood(k, hart, Waiters(c));
    ReleasedLoyal(u, hart, k.x.pid[c], 0, c, now);
    LoyalTrans(k, u, Unburdened(k, c), c, now);
    PersistsTrans(k, u, Unburdened(k, c));
  }

  lemma PersistsWoken(k: K, u: K)
    requires Shape(k) && Shape(u) && u.x == k.x && u.y == k.y && u.t.wake == k.t.wake
    requires forall c :: IsPcb(c) ==> (u.t.status[c] == EXITED <==> k.t.status[c] == EXITED)
    ensures Persists(k, u)
  {
  }

  /** Once d0 is dead it excuses by itself. */
  lemma DeathExcuses(k: K, k': K, d0: int, now: int)
    requires Loyal(k, k', NoCause, d0, now) && IsPcb(d0) && k'.t.status[d0] == EXITED
    ensures Loyal(k, k', NoCause, IDLE, now)
  {
  }

  lemma ExitLoyal(k: K, e: Event)
    requires Good(k) && Inside(k.t, e.hart) && Busy(k.t, e.hart)
    ensures Loyal(k, ExitStep(k, e), NoCause, IDLE, e.now)
  {
    hide Waiting, Owned, Counted, Streams, Queued, Excused;
    var c := k.t.cur[e.hart];
    var u := Unburdened(k, c);
    UnburdenedGood(k, e.hart, c);
    UnburdenLoyal(k, e.hart, c, e.now);
    DeadGood(u, e.hart, c);
    var v := Dead(u, c);
    DeadLoyal(k, u, c, e.now);
    SwitchLoyal(k, v, e, c);
    DeathExcuses(k, ExitStep(k, e), c, e.now);
  }

  /** Death itself moves nobody else. */
  lemma DeadLoyal(k: K, u: K, c: int, now: int)
    requires Loyal(k, u, NoCause, c, now) && IsPcb(c)
    ensures Loyal(k, Dead(u, c), NoCause, c, now)
  {
  }

  lemma KilledLoyal(k: K, hart: int, c: int, now: int)
    requires Good(k) && Inside(k.t, hart) && IsPcb(c) && k.t.status[c] != RUNNING && k.t.status[c] != EXITED
    ensures Loyal(k, Killed(k, c), NoCause, IDLE, now) && Persists(k, Killed(k, c))
  {
    hide Waiting, Owned, Counted, Streams, Queued, Excused;
    var u := Unburdened(k, c);
    UnburdenedGood(k, hart, c);
    UnburdenLoyal(k, hart, c, now);
    OnQueue(u.t, hart, c);
    UnqueuedLoyal(k, u, c, now);
    DeathExcuses(k, Killed(k, c), c, now);
  }

  lemma UnqueuedLoyal(k: K, u: K, c: int, now: int)
    requires Loyal(k, u, NoCause, c, now) && Persists(k, u) && IsPcb(c) && u.t.at[c].On? && c in Q(u.t, u.t.at[c].h)
    ensures Loyal(k, Dead(Unqueued(u, c), c), NoCause, c, now) && Persists(k, Dead(Unqueued(u, c), c))
  {
    hide Position, Without;
    var v := Dead(Unqueued(u, c), c);
    forall d | IsPcb(d) && d != c ensures v.t.at[d] == u.t.at[d] && v.t.status[d] == u.t.status[d] {
    }
    assert v.t.status[c] == EXITED;
  }

  lemma {:induction false} KillLoyal(k: K, u: K, e: Event, p: int, j: nat)
    requires Loyal(k, u, NoCause, IDLE, e.now) && Persists(k, u)
    requires Sane(u) && Busy(u.t, e.hart)
    requires forall c :: IsPcb(c) && u.t.status[c] == RUNNING && u.x.pid[c] == p ==> c == u.t.cur[e.hart]
    ensures Loyal(k, KillStep(u, e, p, j), NoCause, IDLE, e.now)
    decreases N - j
  {
    hide Waiting, Owned, Counted, Streams, Queued, Killed, ExitStep, Excused, Loyal, Persists;
    if j >= N {
    } else if u.t.status[j] == EXITED || u.x.pid[j] != p {
      KillLoyal(k, u, e, p, j + 1);
    } else if j == u.t.cur[e.hart] {
      Enter(u.t, e.hart);
      ExitLoyal(u, e);
      ExitPersists(u, e);
      SameWake(k, u);
      LoyalTrans(k, u, ExitStep(u, e), IDLE, e.now);
    } else {
      KilledGood(u, IDLE, j);
      KilledLoyal(u, IDLE, j, e.now);
      SameWake(k, u);
      LoyalTrans(k, u, Killed(u, j), IDLE, e.now);
      PersistsTrans(k, u, Killed(u, j));
      KillLoyal(k, Killed(u, j), e, p, j + 1);
    }
  }

  lemma SameWake(k: K, u: K)
    requires Persists(k, u)
    ensures u.t.wake == k.t.wake
  {
  }

  lemma PersistsTrans(k: K, u: K, v: K)
    requires Persists(k, u) && Persists(u, v)
    ensures Persists(k, v)
  {
  }

  lemma ExitPersists(k: K, e: Event)
    requires Good(k) && Inside(k.t, e.hart) && Busy(k.t, e.hart)
    ensures Shape(ExitStep(k, e)) && Persists(k, ExitStep(k, e))
  {
    hide Waiting, Owned, Counted, Streams, Queued, Dispatch, Unburdened, Grown, Loyal, Persists;
    var c := k.t.cur[e.hart];
    var u := Unburdened(k, c);
    UnburdenedGood(k, e.hart, c);
    UnburdenLoyal(k, e.hart, c, e.now);
    DeadGood(u, e.hart, c);
    DispatchMoves(Dead(u, c).t, e.hart, e.now);
    DeadPersists(k, u, c);
    MovesPersists(k, Dead(u, c), e);
  }

  lemma DeadPersists(k: K, u: K, c: int)
    requires Persists(k, u) && IsPcb(c)
    ensures Persists(k, Dead(u, c))
  {
  }

  lemma MovesPersists(k: K, u: K, e: Event)
    requires Persists(k, u) && IsHart(e.hart) && Moves(u.t, Dispatch(u.t, e.hart, e.now), e.now)
    ensures Persists(k, Switched(u, e.hart, e.now))
  {
    hide Dispatch;
  }

  /** Nobody who was queued moved. */
  lemma StillLoyal(k: K, k': K, ca: Cause, d0: int, now: int)
    requires Shape(k) && Shape(k') && forall c :: IsPcb(c) && k.t.at[c].On? ==> k'.t.at[c] == k.t.at[c]
    ensures Loyal(k, k', ca, d0, now)
  {
  }

  lemma StartedLoyal(k: K, c: int, pid: int, tid: int, mask: set<int>, now: int)
    requires Sane(k) && IsPcb(c) && k.t.status[c] == EXITED
    ensures Loyal(k, Started(k, c, pid, tid, mask), NoCause, IDLE, now)
  {
    hide Waiting, Owned, Counted, Streams, Queued, Excused;
    assert k.t.at[c] == Off;
    StillLoyal(k, Started(k, c, pid, tid, mask), NoCause, IDLE, now);
  }

  /** What a step does to sleepers, by its operation or by what its process goes on with. */
  function CauseOf(k: K, e: Event): Cause
    requires Shape(k) && Enabled(k, e)
  {
    match e.op
    case Signal(i) => Signals(i)
    case Broadcast(i) => Signals(i)
    case CondDestroy(i) => Signals(i)
    case Send(m, msg) => Gives(m, |msg|)
    case Recv(m, len) => Takes(m, len)
    case Resume => ContCause(k.x.cont[k.t.cur[e.hart]])
    case _ => NoCause
  }

  function ContCause(co: Cont): Cause {
    match co
    case Sending(m, msg) => Gives(m, |msg|)
    case Receiving(m, len) => Takes(m, len)
    case _ => NoCause
  }

  /** What excuses without a cause excuses with any. */
  lemma LoyalAnyway(k: K, k': K, ca: Cause, d0: int, now: int)
    requires Loyal(k, k', NoCause, d0, now)
    ensures Loyal(k, k', ca, d0, now)
  {
  }

  ghost predicate StepIsLoyal(k: K, e: Event)
    requires Shape(k) && Enabled(k, e)
  {
    Loyal(k, Apply(k, e), CauseOf(k, e), IDLE, e.now)
  }

  lemma TaskLoyal(k: K, e: Event)
    requires Sane(k) && Enabled(k, e) && TaskOp(e.op)
    ensures Loyal(k, Apply(k, e), NoCause, IDLE, e.now)
  {
    hide Waiting, Owned, Counted, Streams, Inside, ExitStep, KillStep, ExecStep, ThreadStep, SleepStep, WaitStep,
         TasksetStep, Loyal;
    match e.op
    case Exec => ExecLoyal(k, k.t.mask[k.t.cur[e.hart]], e.now);
    case ThreadCreate(tid) => ThreadLoyal(k, e, tid);
    case Exit =>
      Enter(k.t, e.hart);
      ExitLoyal(k, e);
    case Kill(p) =>
      SelfLoyal(k, e.now);
      KillLoyal(k, k, e, p, 0);
    case SleepUntil(time) => SleepLoyal(k, e, time);
    case Waitpid(p) => WaitLoyal(k, e, FindPid(k, p, 0));
    case Join(tid) => WaitLoyal(k, e, FindThread(k, k.x.pid[k.t.cur[e.hart]], tid, 0));
    case Taskset(p, mask) => TasksetLoyal(k, p, mask, e.now);
  }

  lemma ThreadLoyal(k: K, e: Event, tid: int)
    requires Sane(k) && Busy(k.t, e.hart)
    ensures Loyal(k, ThreadStep(k, e, tid), NoCause, IDLE, e.now)
  {
    hide Waiting, Owned, Counted, Streams, Inside, Loyal, FreePcb, Started;
    FreePcbIs(k);
    if FreePcb(k) < N {
      StartedLoyal(k, FreePcb(k), k.x.pid[k.t.cur[e.hart]], tid, k.t.mask[k.t.cur[e.hart]], e.now);
    } else {
      SelfLoyal(k, e.now);
    }
  }

  lemma TasksetLoyal(k: K, p: int, mask: set<int>, now: int)
    requires Sane(k)
    ensures Loyal(k, TasksetStep(k, p, mask), NoCause, IDLE, now)
  {
    hide Waiting, Owned, Counted, Streams, Inside, Loyal;
    StillLoyal(k, TasksetStep(k, p, mask), NoCause, IDLE, now);
  }

  lemma SelfLoyal(k: K, now: int)
    requires Shape(k)
    ensures Loyal(k, k, NoCause, IDLE, now) && Persists(k, k)
  {
  }

  lemma ExecLoyal(k: K, mask: set<int>, now: int)
    requires Sane(k)
    ensures Loyal(k, ExecStep(k, mask), NoCause, IDLE, now)
  {
    hide Waiting, Owned, Counted, Streams, Queued, FreePcb, Excused;
    FreePcbIs(k);
    var i := FreePcb(k);
    if i < N {
      assert k.t.at[i] == Off;
    }
    StillLoyal(k, ExecStep(k, mask), NoCause, IDLE, now);
  }

  lemma WaitLoyal(k: K, e: Event, d: nat)
    requires Sane(k) && Busy(k.t, e.hart) && (d < N ==> k.t.status[d] != EXITED)
    ensures Loyal(k, WaitStep(k, e, d), NoCause, IDLE, e.now)
  {
    hide Waiting, Owned, Counted, Streams, Inside, Loyal, Parked, Switched;
    if d < N {
      ParkLoyal(k, e, Waiters(d), Done);
    } else {
      SelfLoyal(k, e.now);
    }
  }

  lemma SleepLoyal(k: K, e: Event, time: int)
    requires Sane(k) && Busy(k.t, e.hart)
    ensures Loyal(k, SleepStep(k, e, time), NoCause, IDLE, e.now)
  {
    hide Waiting, Owned, Counted, Streams, Queued, Parked, Switched, Excused, Dispatch;
    var c := k.t.cur[e.hart];
    var u := k.(t := k.t.(wake := k.t.wake[c := time]));
    QueuedSame(k.t, u.t);
    SameEases(k.t, u.t);
    EasesGood(k, u.t);
    ParkLoyal(u, e, Sleep, Done);
    assert k.t.at[c] == Off;
    var v := SleepStep(k, e, time);
    forall d | IsPcb(d) && k.t.at[d].On? && v.t.at[d] != k.t.at[d]
      ensures v.t.status[d] == EXITED || (k.t.at[d].h == Sleep && k.t.wake[d] <= e.now)
              || Excused(k, v, NoCause, IDLE, k.t.at[d].h)
    {
      ExcusedSame(k, u, v, IDLE, k.t.at[d].h);
    }
  }

  lemma ExcusedSame(k: K, u: K, v: K, d0: int, h: Head)
    requires Shape(k) && Shape(u) && Shape(v) && u.y == k.y
    ensures Excused(u, v, NoCause, d0, h) <==> Excused(k, v, NoCause, d0, h)
  {
  }

  lemma AcquireLoyal(k: K, e: Event, l: int)
    requires Sane(k) && Busy(k.t, e.hart) && IsObj(l) && l < k.x.nlocks
    ensures Loyal(k, AcquireStep(k, e, l), NoCause, IDLE, e.now)
  {
    hide Waiting, Owned, Counted, Streams, Inside, Loyal, Parked, Switched;
    if k.x.locks[l].locked {
      ParkLoyal(k, e, Lock(l), Acquiring(l));
    } else {
      StillLoyal(k, Taken(k, e.hart, l), NoCause, IDLE, e.now);
    }
  }

  lemma SendLoyal(k: K, e: Event, m: int, msg: seq<int>)
    requires Sane(k) && Busy(k.t, e.hart) && IsObj(m)
    ensures Loyal(k, SendStep(k, e, m, msg), Gives(m, |msg|), IDLE, e.now)
  {
    hide Waiting, Owned, Counted, Streams, Queued, Loyal, Parked, Switched;
    if |k.x.boxes[m].buf| + |msg| <= ROOM {
      WakeLoyal(k, Put(k, e.hart, m, msg), Empty(m), Gives(m, |msg|), IDLE, e.now);
    } else {
      ParkLoyal(k, e, Full(m), Sending(m, msg));
      LoyalAnyway(k, SendStep(k, e, m, msg), Gives(m, |msg|), IDLE, e.now);
    }
  }

  lemma RecvLoyal(k: K, e: Event, m: int, len: int)
    requires Sane(k) && Busy(k.t, e.hart) && IsObj(m) && len >= 0
    ensures Loyal(k, RecvStep(k, e, m, len), Takes(m, len), IDLE, e.now)
  {
    hide Waiting, Owned, Counted, Streams, Queued, Loyal, Parked, Switched;
    if |k.x.boxes[m].buf| - len >= 0 {
      WakeLoyal(k, Get(k, e.hart, m, len), Full(m), Takes(m, len), IDLE, e.now);
    } else {
      ParkLoyal(k, e, Empty(m), Receiving(m, len));
      LoyalAnyway(k, RecvStep(k, e, m, len), Takes(m, len), IDLE, e.now);
    }
  }

  lemma CondWaitLoyal(k: K, e: Event, i: int, l: int)
    requires Sane(k) && Busy(k.t, e.hart) && IsObj(i) && IsObj(l) && l < k.x.nlocks
    ensures Loyal(k, CondWaitStep(k, e, i, l), NoCause, IDLE, e.now)
  {
    hide Waiting, Owned, Counted, Streams, Queued, Excused, Switched;
    Enter(k.t, e.hart);
    var u := Parked(k, e.hart, Cond(i), Acquiring(l));
    var c := k.t.cur[e.hart];
    ParkedGood(k, e.hart, Cond(i), Acquiring(l));
    StillLoyal(k, u, NoCause, IDLE, e.now);
    UnlockedGood(u, e.hart, l);
    UnlockLoyal(u, e.hart, l, IDLE, e.now);
    LoyalTrans(k, u, Unlocked(u, l), IDLE, e.now);
    LetGoLoyal(k, Unlocked(u, l), l, c, e.now);
    SwitchLoyal(k, LetGo(Unlocked(u, l), l, c), e, IDLE);
  }

  lemma LetGoLoyal(k: K, u: K, l: int, c: int, now: int)
    requires Loyal(k, u, NoCause, IDLE, now) && IsObj(l)
    ensures Loyal(k, LetGo(u, l, c), NoCause, IDLE, now)
  {
  }

  lemma BarrierLoyal(k: K, e: Event, b: int)
    requires Sane(k) && Busy(k.t, e.hart) && IsObj(b)
    ensures Loyal(k, BarrierStep(k, e, b), NoCause, IDLE, e.now)
  {
    hide Waiting, Owned, Counted, Streams, Queued, Switched;
    if k.x.bars[b].counter + 1 >= k.x.bars[b].goal {
      WakeLoyal(k, BarFull(k, b), Bar(b), NoCause, IDLE, e.now);
    } else {
      Enter(k.t, e.hart);
      BarJoinGood(k, e.hart, b);
      StillLoyal(k, BarJoin(k, e.hart, b), NoCause, IDLE, e.now);
      SwitchLoyal(k, BarJoin(k, e.hart, b), e, IDLE);
    }
  }

  lemma InitLoyal(k: K, e: Event)
    requires Sane(k) && Enabled(k, e) && (e.op.LockInit? || e.op.BarrierInit? || e.op.CondInit? || e.op.Open?
                                          || e.op.Close?)
    ensures Loyal(k, Apply(k, e), NoCause, IDLE, e.now)
  {
    hide Waiting, Owned, Counted, Streams, Inside, Excused;
    StillLoyal(k, Apply(k, e), NoCause, IDLE, e.now);
  }

  lemma ResumeLoyal(k: K, e: Event)
    requires Sane(k) && Busy(k.t, e.hart) && 0 <= k.x.nlocks <= OBJECTS && ContOk(k.x, k.x.cont[k.t.cur[e.hart]])
    ensures Loyal(k, ResumeStep(k, e), ContCause(k.x.cont[k.t.cur[e.hart]]), IDLE, e.now)
  {
    hide Waiting, Owned, Counted, Streams, Inside, AcquireStep, SendStep, RecvStep, Loyal;
    match k.x.cont[k.t.cur[e.hart]]
    case Done => SelfLoyal(k, e.now);
    case Acquiring(l) => AcquireLoyal(k, e, l);
    case Sending(m, msg) => SendLoyal(k, e, m, msg);
    case Receiving(m, len) => RecvLoyal(k, e, m, len);
  }

  lemma SignalLoyal(k: K, i: int, now: int)
    requires Sane(k) && IsObj(i)
    ensures Loyal(k, SignalStep(k, i), Signals(i), IDLE, now) && Loyal(k, Woken(k, Cond(i)), Signals(i), IDLE, now)
    ensures Loyal(k, CondDestroyStep(k, i), Signals(i), IDLE, now)
  {
    hide Waiting, Owned, Counted, Streams, Queued;
    WakeLoyal(k, Woken(k, Cond(i)), Cond(i), Signals(i), IDLE, now);
    WakeLoyal(k, CondDestroyStep(k, i), Cond(i), Signals(i), IDLE, now);
    MembersAt(k.t, Cond(i), Q(k.t, Cond(i))[..if Q(k.t, Cond(i)) == [] then 0 else 1]);
  }

  /** In every step, whoever leaves a queue has one of the reasons of `Excused`, is due, or dies. */
  lemma StepLoyal(k: K, e: Event)
    requires Sane(k) && Enabled(k, e)
    ensures StepIsLoyal(k, e)
  {
    hide Waiting, Owned, Counted, Streams, Inside, Loyal, AcquireStep, CondWaitStep, SignalStep, CondDestroyStep,
         BarrierStep, SendStep, RecvStep, ResumeStep, ExecStep, Switched, ReleaseStep, Woken, BarClosed;
    if TaskOp(e.op) {
      TaskLoyal(k, e);
    } else {
      match e.op
      case Tick =>
        Enter(k.t, e.hart);
        SelfLoyal(k, e.now);
        SwitchLoyal(k, k, e, IDLE);
      case Resume => ResumeLoyal(k, e);
      case Boot(mask) => ExecLoyal(k, mask, e.now);
      case Acquire(l) => AcquireLoyal(k, e, l);
      case Release(l) => ReleaseLoyal(k, e, l);
      case BarrierWait(b) => BarrierLoyal(k, e, b);
      case BarrierDestroy(b) => DestroyLoyal(k, b, e.now);
      case CondWait(i, l) => CondWaitLoyal(k, e, i, l);
      case Signal(i) => SignalLoyal(k, i, e.now);
      case Broadcast(i) => SignalLoyal(k, i, e.now);
      case CondDestroy(i) => SignalLoyal(k, i, e.now);
      case Send(m, msg) => SendLoyal(k, e, m, msg);
      case Recv(m, len) => RecvLoyal(k, e, m, len);
      case _ => InitLoyal(k, e);
    }
  }

  lemma ReleaseLoyal(k: K, e: Event, l: int)
    requires Sane(k) && Busy(k.t, e.hart) && IsObj(l)
    ensures Loyal(k, ReleaseStep(k, e, l), NoCause, IDLE, e.now)
  {
    hide Waiting, Owned, Counted, Streams, Inside, Loyal, Unlocked;
    UnlockLoyal(k, IDLE, l, IDLE, e.now);
    LetGoLoyal(k, Unlocked(k, l), l, k.t.cur[e.hart], e.now);
  }

  lemma DestroyLoyal(k: K, b: int, now: int)
    requires Sane(k) && IsObj(b)
    ensures Loyal(k, BarClosed(k, b), NoCause, IDLE, now)
  {
    hide Waiting, Owned, Counted, Streams, Queued;
    WakeLoyal(k, BarClosed(k, b), Bar(b), NoCause, IDLE, now);
  }

  /** A process waiting on another leaves only when that one has exited or it is itself killed; one waiting for a
      lock only when the lock is free; one waiting for a condition only by a signal; one waiting at a barrier only when
      the round is complete or the barrier destroyed; a sender only when bytes were taken from its mailbox, a receiver
      only when bytes were put into it; a sleeper only when its time has come. */
  lemma Departure(k: K, e: Event, c: int, h: Head)
    requires Sane(k) && Enabled(k, e) && c in Q(k.t, h) && c !in Q(Apply(k, e).t, h)
    ensures Shape(Apply(k, e)) && IsPcb(c)
    ensures var k' := Apply(k, e);
            || k'.t.status[c] == EXITED || (h == Sleep && k.t.wake[c] <= e.now)
               || Excused(k, k', CauseOf(k, e), IDLE, h)
  {
    hide Apply, Enabled, Excused;
    StepSane(k, e);
    StepLoyal(k, e);
    OnlyPlace(k.t, c, h);
    OnlyPlace(Apply(k, e).t, c, h);
  }

  /** Spelled out for `do_waitpid` and `do_pthread_join`. */
  lemma WaiterLeaves(k: K, e: Event, c: int, d: int)
    requires Sane(k) && Enabled(k, e) && IsPcb(d) && c in Q(k.t, Waiters(d)) && c !in Q(Apply(k, e).t, Waiters(d))
    ensures Shape(Apply(k, e)) && IsPcb(c) && (Apply(k, e).t.status[d] == EXITED || Apply(k, e).t.status[c] == EXITED)
  {
    hide Apply, Enabled, Sane;
    Departure(k, e, c, Waiters(d));
  }

  // ---------------------------------------------------------------- condition variables

  /** When `do_condition_wait` gives up the mutex, the caller is already on the condition's queue: a signal sent by
      the next owner finds it. */
  lemma NoLostSignal(k: K, e: Event, i: int, l: int)
    requires Sane(k) && Enabled(k, e) && e.op == CondWait(i, l)
    ensures var k', c := Apply(k, e), k.t.cur[e.hart];
            && Shape(k') && IsPcb(c) && c in Q(k'.t, Cond(i)) && !k'.x.locks[l].locked && c !in k'.y.held[l]
            && Q(k'.t, Lock(l)) == [] && k'.x.cont[c] == Acquiring(l)
  {
    hide Waiting, Owned, Counted, Streams, Queued, Dispatch;
    StepSane(k, e);
    Enter(k.t, e.hart);
    var c := k.t.cur[e.hart];
    var u := Parked(k, e.hart, Cond(i), Acquiring(l));
    ParkedGood(k, e.hart, Cond(i), Acquiring(l));
    UnlockedGood(u, e.hart, l);
    var v := LetGo(Unlocked(u, l), l, c);
    StaysOn(u.t, Lock(l), c, Cond(i));
    DispatchMoves(v.t, e.hart, e.now);
    OnlyPlace(Apply(k, e).t, c, Cond(i));
    NoLockWaiters(Apply(k, e), l);
  }

  lemma StaysOn(t: Tasks, h: Head, c: int, g: Head)
    requires Queued(t) && IsPcb(c) && t.at[c] == On(g) && g != h
    ensures WakeAll(t, h).at[c] == On(g)
  {
  }

  lemma NoLockWaiters(k: K, l: int)
    requires Sane(k) && IsObj(l) && !k.x.locks[l].locked
    ensures Q(k.t, Lock(l)) == []
  {
    LockedIsAlive(k, l);
  }

  /** A turn of the acquire loop ends either with the lock held by the caller or with the caller asleep on it. */
  lemma AcquireEnds(k: K, e: Event, l: int)
    requires Sane(k) && Busy(k.t, e.hart) && IsObj(l) && l < k.x.nlocks
    ensures var k', c := AcquireStep(k, e, l), k.t.cur[e.hart];
            && Shape(k')
            && if k.x.locks[l].locked then c in Q(k'.t, Lock(l)) && k'.x.cont[c] == Acquiring(l)
               else k'.x.cont[c] == Done && k'.x.locks[l].locked && k'.y.taker[l] == c && c in k'.y.held[l]
  {
    hide Waiting, Owned, Counted, Streams, Queued, Dispatch;
    AcquireSane(k, e, l);
    var c := k.t.cur[e.hart];
    if k.x.locks[l].locked {
      Enter(k.t, e.hart);
      ParkedGood(k, e.hart, Lock(l), Acquiring(l));
      DispatchMoves(Parked(k, e.hart, Lock(l), Acquiring(l)).t, e.hart, e.now);
      OnlyPlace(AcquireStep(k, e, l).t, c, Lock(l));
    }
  }

  lemma UnburdenedConts(k: K, c: int)
    requires Good(k) && Stable(k.t) && IsPcb(c)
    ensures Unburdened(k, c).x.cont == k.x.cont && Killed(k, c).x.cont == k.x.cont
  {
    hide Waiting, Owned, Counted, Streams, Inside, Calm, Free;
    UnburdenedGood(k, IDLE, c);
  }

  lemma {:induction false} KillConts(k: K, e: Event, p: int, i: nat)
    requires Sane(k) && Busy(k.t, e.hart)
    requires forall c :: IsPcb(c) && k.t.status[c] == RUNNING && k.x.pid[c] == p ==> c == k.t.cur[e.hart]
    ensures KillStep(k, e, p, i).x.cont == k.x.cont
    decreases N - i
  {
    hide Waiting, Owned, Counted, Streams, Queued, Killed, Unburdened, Dispatch;
    if i >= N {
    } else if k.t.status[i] == EXITED || k.x.pid[i] != p {
      KillConts(k, e, p, i + 1);
    } else if i == k.t.cur[e.hart] {
      UnburdenedConts(k, i);
    } else {
      KilledGood(k, IDLE, i);
      UnburdenedConts(k, i);
      KillConts(Killed(k, i), e, p, i + 1);
    }
  }

  /** A step changes what the process on its own hart goes on with, and that of no other living process. */
  lemma ContFrame(k: K, e: Event, c: int)
    requires Sane(k) && Enabled(k, e) && IsPcb(c) && k.t.status[c] != EXITED && c != k.t.cur[e.hart]
    ensures Shape(Apply(k, e)) && Apply(k, e).x.cont[c] == k.x.cont[c]
  {
    hide Waiting, Owned, Counted, Streams, Inside, Unburdened, KillStep, Dispatch, Wake, Spawned, FreePcb, First;
    StepSane(k, e);
    match e.op
    case Exit => UnburdenedConts(k, k.t.cur[e.hart]);
    case Kill(p) => KillConts(k, e, p, 0);
    case Exec => FreePcbIs(k);
    case Boot(_) => FreePcbIs(k);
    case ThreadCreate(_) => FreePcbIs(k);
    case _ =>
  }

  /** Whoever is in an acquire loop, be it from `do_mutex_lock_acquire` or at the end of `do_condition_wait`, stays in
      it through every step until it is killed or has taken the lock: so the call returns holding it. */
  lemma ReturnsHolding(k: K, e: Event, c: int, l: int)
    requires Sane(k) && Enabled(k, e) && IsPcb(c) && k.t.status[c] != EXITED && k.x.cont[c] == Acquiring(l)
    ensures var k' := Apply(k, e);
            && Shape(k') && IsObj(l)
            && (k'.x.cont[c] == Acquiring(l) || k'.t.status[c] == EXITED
                || (k'.x.cont[c] == Done && k'.x.locks[l].locked && k'.y.taker[l] == c && c in k'.y.held[l]))
  {
    hide Waiting, Counted, Streams, Inside, AcquireStep, SendStep, RecvStep, Dispatch;
    StepSane(k, e);
    PendingLock(k, c, l);
    if c != k.t.cur[e.hart] {
      ContFrame(k, e, c);
    } else if e.op == Resume {
      AcquireEnds(k, e, l);
    } else {
      assert e.op == Tick;
    }
  }

  lemma PendingLock(k: K, c: int, l: int)
    requires Good(k) && IsPcb(c) && k.x.cont[c] == Acquiring(l)
    ensures 0 <= l < k.x.nlocks <= OBJECTS && IsObj(l)
  {
    assert ContOk(k.x, k.x.cont[c]);
  }

  /** Through the run c stays in the acquire loop of lock l until it dies or has taken the lock. */
  ghost predicate EndsHolding(k: K, es: seq<Event>, c: int, l: int)
    requires IsRun(k, es) && Shape(k) && IsPcb(c) && IsObj(l)
    decreases |es|
  {
    if es == [] then k.x.cont[c] == Acquiring(l)
    else
      var k' := Apply(k, es[0]);
      && Shape(k')
      && (k'.t.status[c] == EXITED || Has(k', c, l) || (k'.x.cont[c] == Acquiring(l) && EndsHolding(k', es[1..], c, l)))
  }

  /** c is out of the kernel with the lock: it took it last, and it is LOCKED. */
  ghost predicate Has(k: K, c: int, l: int)
    requires Shape(k) && IsPcb(c) && IsObj(l)
  {
    k.x.cont[c] == Done && k.x.locks[l].locked && k.y.taker[l] == c && c in k.y.held[l]
  }

  lemma {:induction false} LoopEndsHolding(k: K, es: seq<Event>, c: int, l: int)
    requires Sane(k) && IsRun(k, es) && IsPcb(c) && IsObj(l) && k.t.status[c] != EXITED && k.x.cont[c] == Acquiring(l)
    ensures EndsHolding(k, es, c, l)
    decreases |es|
  {
    hide Apply, Enabled, Good, Stable;
    GoodShape(k);
    if es != [] {
      var k' := Apply(k, es[0]);
      StepSane(k, es[0]);
      GoodShape(k');
      ReturnsHolding(k, es[0], c, l);
      if k'.t.status[c] != EXITED && !Has(k', c, l) {
        LoopEndsHolding(k', es[1..], c, l);
      }
    }
  }

  /** Whatever happens after a call of `do_condition_wait`, the caller returns from it only with the mutex. */
  lemma WaitReturnsHolding(k: K, e: Event, es: seq<Event>, i: int, l: int)
    requires Sane(k) && Enabled(k, e) && e.op == CondWait(i, l) && IsRun(Apply(k, e), es)
    ensures Shape(Apply(k, e)) && IsObj(l) && IsPcb(k.t.cur[e.hart]) && EndsHolding(Apply(k, e), es, k.t.cur[e.hart], l)
  {
    hide Apply, Good, EndsHolding, Inv;
    GoodShape(k);
    StepSane(k, e);
    NoLostSignal(k, e, i, l);
    StillAlive(Apply(k, e), k.t.cur[e.hart], Cond(i));
    LoopEndsHolding(Apply(k, e), es, k.t.cur[e.hart], l);
  }

  lemma StillAlive(k: K, c: int, h: Head)
    requires Sane(k) && c in Q(k.t, h)
    ensures Shape(k) && IsPcb(c) && k.t.status[c] != EXITED
  {
    OnlyPlace(k.t, c, h);
  }

  // ---------------------------------------------------------------- bounded bypass

  /** Whether the step ends in `do_scheduler`. */
  predicate Switches(k: K, e: Event)
    requires Shape(k) && Enabled(k, e)
  {
    match e.op
    case Tick => true
    case Resume =>
      (match k.x.cont[k.t.cur[e.hart]]
       case Done => false
       case Acquiring(l) => k.x.locks[l].locked
       case Sending(m, msg) => |k.x.boxes[m].buf| + |msg| > ROOM
       case Receiving(m, len) => |k.x.boxes[m].buf| < len)
    case Exit => true
    case SleepUntil(_) => true
    case Waitpid(p) => FindPid(k, p, 0) < N
    case Join(tid) => FindThread(k, k.x.pid[k.t.cur[e.hart]], tid, 0) < N
    case Acquire(l) => k.x.locks[l].locked
    case BarrierWait(b) => k.x.bars[b].counter + 1 < k.x.bars[b].goal
    case CondWait(_, _) => true
    case Send(m, msg) => |k.x.boxes[m].buf| + |msg| > ROOM
    case Recv(m, len) => |k.x.boxes[m].buf| < len
    case _ => false
  }

  /** How many processes that may run on the hart are ahead of c. */
  ghost function InFront(t: Tasks, c: int, hart: int): nat {
    Ahead(t, Q(t, Ready), c, hart)
  }

  /** c runs now, or it is still ready with fewer ahead of it if the hart has switched, and no more otherwise. */
  ghost predicate Nearer(t: Tasks, t': Tasks, c: int, hart: int, switched: bool) {
    || (Sized(t') && IsPcb(c) && t'.status[c] == RUNNING)
    || (c in Q(t', Ready) && Allowed(t', hart, c)
        && InFront(t', c, hart) + (if switched then 1 else 0) <= InFront(t, c, hart))
  }

  lemma GrownNearer(t: Tasks, t': Tasks, c: int, hart: int)
    requires Grown(t, t') && c in Q(t, Ready) && Allowed(t, hart, c)
    ensures Nearer(t, t', c, hart, false)
  {
    GrownAhead(t, t', c, hart);
  }

  lemma SwitchNearer(t: Tasks, u: Tasks, e: Event, c: int, hart: int)
    requires Grown(t, u) && Inside(u, e.hart) && IsHart(e.hart) && c in Q(t, Ready) && Allowed(t, hart, c)
    ensures Nearer(t, Dispatch(u, e.hart, e.now), c, hart, e.hart == hart)
  {
    hide Dispatch, Ahead, Inv;
    GrownAhead(t, u, c, hart);
    InsideSized(u, e.hart);
    DispatchInv(u, e.hart, e.now);
    if e.hart == hart {
      DispatchBypass(u, hart, e.now, c);
    } else {
      DispatchOther(u, e.hart, e.now, c, hart);
    }
  }

  lemma InsideSized(t: Tasks, hart: int)
    requires Inside(t, hart)
    ensures Sized(t)
  {
  }

  lemma ParkNearer(k: K, e: Event, h: Head, co: Cont, c: int, hart: int)
    requires Sane(k) && Busy(k.t, e.hart) && h != Ready && !h.Bar? && Reason(k.t.status, k.x, h, co) && ContOk(k.x, co)
    requires c in Q(k.t, Ready) && Allowed(k.t, hart, c)
    ensures Shape(Parked(k, e.hart, h, co))
    ensures Nearer(k.t, Switched(Parked(k, e.hart, h, co), e.hart, e.now).t, c, hart, e.hart == hart)
  {
    hide Waiting, Owned, Counted, Streams, Queued, Grown, Reason, ContOk, Nearer, Dispatch;
    Enter(k.t, e.hart);
    ParkedGood(k, e.hart, h, co);
    EnqueueGrown(k.t, k.t.cur[e.hart], h, BLOCKED);
    SwitchNearer(k.t, Parked(k, e.hart, h, co).t, e, c, hart);
  }

  lemma SameGrown(t: Tasks, t': Tasks)
    requires Q(t', Ready) == Q(t, Ready) && t'.mask == t.mask
    ensures Grown(t, t')
  {
    assert Q(t', Ready) == Q(t, Ready) + [];
  }

  lemma CalmGrown(t: Tasks, t': Tasks)
    requires Calm(t, t')
    ensures Grown(t, t')
  {
  }

  lemma SpawnedGrown(k: K, i: int, mask: set<int>)
    requires Sane(k) && IsPcb(i) && k.t.status[i] == EXITED
    ensures Grown(k.t, Spawned(k.t, i, mask))
  {
    var t' := Spawned(k.t, i, mask);
    assert Q(t', Ready) == Q(k.t, Ready) + [i];
    assert i !in Q(k.t, Ready);
    forall hart, d | d in Q(k.t, Ready) ensures Allowed(t', hart, d) <==> Allowed(k.t, hart, d) {
      assert d != i;
    }
  }

  lemma ExecNearer(k: K, mask: set<int>, c: int, hart: int)
    requires Sane(k) && c in Q(k.t, Ready) && Allowed(k.t, hart, c)
    ensures Nearer(k.t, ExecStep(k, mask).t, c, hart, false)
  {
    hide Good, Inside, FreePcb, Grown, Spawned, Nearer;
    GoodShape(k);
    FreePcbIs(k);
    if FreePcb(k) < N {
      SpawnedGrown(k, FreePcb(k), mask);
    } else {
      SameGrown(k.t, k.t);
    }
    GrownNearer(k.t, ExecStep(k, mask).t, c, hart);
  }

  lemma ThreadNearer(k: K, e: Event, tid: int, c: int, hart: int)
    requires Sane(k) && Busy(k.t, e.hart) && c in Q(k.t, Ready) && Allowed(k.t, hart, c)
    ensures Nearer(k.t, ThreadStep(k, e, tid).t, c, hart, false)
  {
    hide Good, Inside, FreePcb, Grown, Spawned, Nearer;
    GoodShape(k);
    FreePcbIs(k);
    if FreePcb(k) < N {
      SpawnedGrown(k, FreePcb(k), k.t.mask[k.t.cur[e.hart]]);
    } else {
      SameGrown(k.t, k.t);
    }
    GrownNearer(k.t, ThreadStep(k, e, tid).t, c, hart);
  }

  lemma ExitNearer(k: K, e: Event, c: int, hart: int)
    requires Sane(k) && Busy(k.t, e.hart) && c in Q(k.t, Ready) && Allowed(k.t, hart, c)
    ensures Nearer(k.t, ExitStep(k, e).t, c, hart, e.hart == hart)
  {
    hide Waiting, Owned, Counted, Streams, Queued, Grown, Nearer, Dispatch;
    Enter(k.t, e.hart);
    var d := k.t.cur[e.hart];
    var u := Unburdened(k, d);
    UnburdenedGood(k, e.hart, d);
    DeadGood(u, e.hart, d);
    CalmGrown(k.t, u.t);
    SameGrown(u.t, Dead(u, d).t);
    GrownTrans(k.t, u.t, Dead(u, d).t);
    SwitchNearer(k.t, Dead(u, d).t, e, c, hart);
  }

  lemma SleepNearer(k: K, e: Event, time: int, c: int, hart: int)
    requires Sane(k) && Busy(k.t, e.hart) && c in Q(k.t, Ready) && Allowed(k.t, hart, c)
    ensures Nearer(k.t, SleepStep(k, e, time).t, c, hart, e.hart == hart)
  {
    hide Waiting, Owned, Counted, Streams, Queued, Grown, Nearer, Dispatch;
    var u := k.(t := k.t.(wake := k.t.wake[k.t.cur[e.hart] := time]));
    QueuedSame(k.t, u.t);
    SameEases(k.t, u.t);
    EasesGood(k, u.t);
    Enter(u.t, e.hart);
    ParkedGood(u, e.hart, Sleep, Done);
    var v := Parked(u, e.hart, Sleep, Done);
    SameGrown(k.t, u.t);
    EnqueueGrown(u.t, k.t.cur[e.hart], Sleep, BLOCKED);
    GrownTrans(k.t, u.t, v.t);
    SwitchNearer(k.t, v.t, e, c, hart);
  }

  lemma WaitNearer(k: K, e: Event, d: nat, c: int, hart: int)
    requires Sane(k) && Busy(k.t, e.hart) && (d < N ==> k.t.status[d] != EXITED) && c in Q(k.t, Ready)
             && Allowed(k.t, hart, c)
    ensures Nearer(k.t, WaitStep(k, e, d).t, c, hart, d < N && e.hart == hart)
  {
    hide Waiting, Owned, Counted, Streams, Inside, Nearer, Parked, Switched;
    if d < N {
      ParkNearer(k, e, Waiters(d), Done, c, hart);
    } else {
      SameGrown(k.t, k.t);
      GrownNearer(k.t, k.t, c, hart);
    }
  }

  lemma AcquireNearer(k: K, e: Event, l: int, c: int, hart: int)
    requires Sane(k) && Busy(k.t, e.hart) && IsObj(l) && l < k.x.nlocks && c in Q(k.t, Ready) && Allowed(k.t, hart, c)
    ensures Nearer(k.t, AcquireStep(k, e, l).t, c, hart, k.x.locks[l].locked && e.hart == hart)
  {
    hide Waiting, Owned, Counted, Streams, Inside, Nearer, Parked, Switched;
    if k.x.locks[l].locked {
      ParkNearer(k, e, Lock(l), Acquiring(l), c, hart);
    } else {
      SameGrown(k.t, k.t);
      GrownNearer(k.t, k.t, c, hart);
    }
  }

  lemma SendNearer(k: K, e: Event, m: int, msg: seq<int>, c: int, hart: int)
    requires Sane(k) && Busy(k.t, e.hart) && IsObj(m) && c in Q(k.t, Ready) && Allowed(k.t, hart, c)
    ensures Nearer(k.t, SendStep(k, e, m, msg).t, c, hart, |k.x.boxes[m].buf| + |msg| > ROOM && e.hart == hart)
  {
    hide Waiting, Owned, Counted, Streams, Inside, Nearer, Parked, Switched, Calm, Grown;
    if |k.x.boxes[m].buf| + |msg| > ROOM {
      ParkNearer(k, e, Full(m), Sending(m, msg), c, hart);
    } else {
      PutGood(k, e.hart, m, msg);
      CalmGrown(k.t, Put(k, e.hart, m, msg).t);
      GrownNearer(k.t, Put(k, e.hart, m, msg).t, c, hart);
    }
  }

  lemma RecvNearer(k: K, e: Event, m: int, len: int, c: int, hart: int)
    requires Sane(k) && Busy(k.t, e.hart) && IsObj(m) && len >= 0 && c in Q(k.t, Ready) && Allowed(k.t, hart, c)
    ensures Nearer(k.t, RecvStep(k, e, m, len).t, c, hart, |k.x.boxes[m].buf| < len && e.hart == hart)
  {
    hide Waiting, Owned, Counted, Streams, Inside, Nearer, Parked, Switched, Calm, Grown;
    if |k.x.boxes[m].buf| < len {
      ParkNearer(k, e, Empty(m), Receiving(m, len), c, hart);
    } else {
      GetGood(k, e.hart, m, len);
      CalmGrown(k.t, Get(k, e.hart, m, len).t);
      GrownNearer(k.t, Get(k, e.hart, m, len).t, c, hart);
    }
  }

  lemma BarrierNearer(k: K, e: Event, b: int, c: int, hart: int)
    requires Sane(k) && Busy(k.t, e.hart) && IsObj(b) && c in Q(k.t, Ready) && Allowed(k.t, hart, c)
    ensures Nearer(k.t, BarrierStep(k, e, b).t, c, hart, k.x.bars[b].counter + 1 < k.x.bars[b].goal && e.hart == hart)
  {
    hide Waiting, Owned, Counted, Streams, Nearer, Dispatch, Calm, Grown, Queued;
    if k.x.bars[b].counter + 1 < k.x.bars[b].goal {
      Enter(k.t, e.hart);
      BarJoinGood(k, e.hart, b);
      EnqueueGrown(k.t, k.t.cur[e.hart], Bar(b), BLOCKED);
      SwitchNearer(k.t, BarJoin(k, e.hart, b).t, e, c, hart);
    } else {
      BarFullGood(k, IDLE, b);
      CalmGrown(k.t, BarFull(k, b).t);
      GrownNearer(k.t, BarFull(k, b).t, c, hart);
    }
  }

  lemma CondWaitNearer(k: K, e: Event, i: int, l: int, c: int, hart: int)
    requires Sane(k) && Busy(k.t, e.hart) && IsObj(i) && IsObj(l) && l < k.x.nlocks && c in Q(k.t, Ready)
             && Allowed(k.t, hart, c)
    ensures Nearer(k.t, CondWaitStep(k, e, i, l).t, c, hart, e.hart == hart)
  {
    hide Waiting, Owned, Counted, Streams, Queued, Grown, Nearer, Dispatch, Calm;
    Enter(k.t, e.hart);
    var u := Parked(k, e.hart, Cond(i), Acquiring(l));
    ParkedGood(k, e.hart, Cond(i), Acquiring(l));
    UnlockedGood(u, e.hart, l);
    var v := LetGo(Unlocked(u, l), l, k.t.cur[e.hart]);
    EnqueueGrown(k.t, k.t.cur[e.hart], Cond(i), BLOCKED);
    CalmGrown(u.t, v.t);
    GrownTrans(k.t, u.t, v.t);
    SwitchNearer(k.t, v.t, e, c, hart);
  }

  lemma ResumeNearer(k: K, e: Event, c: int, hart: int)
    requires Sane(k) && Enabled(k, e) && e.op == Resume && c in Q(k.t, Ready) && Allowed(k.t, hart, c)
    ensures Nearer(k.t, Apply(k, e).t, c, hart, Switches(k, e) && e.hart == hart)
  {
    hide Waiting, Owned, Counted, Streams, Inside, AcquireStep, SendStep, RecvStep, Nearer;
    match k.x.cont[k.t.cur[e.hart]]
    case Acquiring(l) => AcquireNearer(k, e, l, c, hart);
    case Sending(m, msg) => SendNearer(k, e, m, msg, c, hart);
    case Receiving(m, len) => RecvNearer(k, e, m, len, c, hart);
    case Done =>
  }

  /** The operations that neither switch nor touch the ready queue otherwise than at its tail. */
  lemma QuietNearer(k: K, e: Event, c: int, hart: int)
    requires Sane(k) && Enabled(k, e) && c in Q(k.t, Ready) && Allowed(k.t, hart, c)
    requires e.op.LockInit? || e.op.BarrierInit? || e.op.CondInit? || e.op.Open? || e.op.Close?
    ensures Nearer(k.t, Apply(k, e).t, c, hart, false)
  {
    hide Waiting, Owned, Counted, Streams, Inside, Grown, Nearer;
    SameGrown(k.t, Apply(k, e).t);
    GrownNearer(k.t, Apply(k, e).t, c, hart);
  }

  lemma WakerNearer(k: K, e: Event, c: int, hart: int)
    requires Sane(k) && Enabled(k, e) && c in Q(k.t, Ready) && Allowed(k.t, hart, c)
    requires e.op.Release? || e.op.BarrierDestroy? || e.op.Signal? || e.op.Broadcast? || e.op.CondDestroy?
    ensures Nearer(k.t, Apply(k, e).t, c, hart, false)
  {
    hide Waiting, Owned, Counted, Streams, Inside, Grown, Nearer, Calm, ReleaseStep, BarClosed, SignalStep, WakeAll;
    match e.op {
      case Release(l) => ReleaseSane(k, e, l);
      case BarrierDestroy(b) => BarClosedGood(k, IDLE, b);
      case Signal(i) => SignalSane(k, i);
      case Broadcast(i) => WakeSane(k, i);
      case CondDestroy(i) => WakeSane(k, i);
    }
    CalmGrown(k.t, Apply(k, e).t);
    GrownNearer(k.t, Apply(k, e).t, c, hart);
  }

  /** No step but a kill or a change of masks lets anybody past a ready process. */
  lemma StepNearer(k: K, e: Event, c: int, hart: int)
    requires Sane(k) && Enabled(k, e) && !e.op.Kill? && !e.op.Taskset? && c in Q(k.t, Ready) && Allowed(k.t, hart, c)
    ensures Nearer(k.t, Apply(k, e).t, c, hart, Switches(k, e) && e.hart == hart)
  {
    hide Waiting, Owned, Counted, Streams, Inside, Nearer, AcquireStep, CondWaitStep, BarrierStep, SendStep, RecvStep,
         ExitStep, SleepStep, WaitStep, ExecStep, ThreadStep, ResumeStep, SignalStep, CondDestroyStep, OpenStep,
         CloseStep, LockInitStep, BarrierInitStep, CondInitStep, ReleaseStep, Woken, BarClosed, Dispatch;
    match e.op
    case Tick =>
      Enter(k.t, e.hart);
      SameGrown(k.t, k.t);
      SwitchNearer(k.t, k.t, e, c, hart);
    case Resume => ResumeNearer(k, e, c, hart);
    case Boot(mask) => ExecNearer(k, mask, c, hart);
    case Exec => ExecNearer(k, k.t.mask[k.t.cur[e.hart]], c, hart);
    case ThreadCreate(tid) => ThreadNearer(k, e, tid, c, hart);
    case Exit => ExitNearer(k, e, c, hart);
    case SleepUntil(time) => SleepNearer(k, e, time, c, hart);
    case Waitpid(p) => WaitNearer(k, e, FindPid(k, p, 0), c, hart);
    case Join(tid) => WaitNearer(k, e, FindThread(k, k.x.pid[k.t.cur[e.hart]], tid, 0), c, hart);
    case Acquire(l) => AcquireNearer(k, e, l, c, hart);
    case BarrierWait(b) => BarrierNearer(k, e, b, c, hart);
    case CondWait(i, l) => CondWaitNearer(k, e, i, l, c, hart);
    case Send(m, msg) => SendNearer(k, e, m, msg, c, hart);
    case Recv(m, len) => RecvNearer(k, e, m, len, c, hart);
    case LockInit(_) => QuietNearer(k, e, c, hart);
    case BarrierInit(_) => QuietNearer(k, e, c, hart);
    case CondInit => QuietNearer(k, e, c, hart);
    case Open(_) => QuietNearer(k, e, c, hart);
    case Close(_) => QuietNearer(k, e, c, hart);
    case _ => WakerNearer(k, e, c, hart);
  }

  /** How often the hart switches in a run. */
  ghost function SwitchCount(k: K, es: seq<Event>, hart: int): nat
    requires IsRun(k, es)
    decreases |es|
  {
    if es == [] then 0
    else (if Switches(k, es[0]) && es[0].hart == hart then 1 else 0) + SwitchCount(Apply(k, es[0]), es[1..], hart)
  }

  /** c runs at some point of the run. */
  ghost predicate RunsIn(k: K, es: seq<Event>, c: int)
    requires IsRun(k, es)
    decreases |es|
  {
    || (Shape(k) && IsPcb(c) && k.t.status[c] == RUNNING)
    || (es != [] && RunsIn(Apply(k, es[0]), es[1..], c))
  }

  /** A ready process that may run on a hart, with n such processes ahead of it, runs within n + 1 switches of that
      hart, whatever else happens but kills and changes of masks. */
  lemma {:induction false} BoundedBypass(k: K, es: seq<Event>, c: int, hart: int)
    requires Sane(k) && IsRun(k, es) && c in Q(k.t, Ready) && Allowed(k.t, hart, c)
    requires forall j :: 0 <= j < |es| ==> !es[j].op.Kill? && !es[j].op.Taskset?
    requires SwitchCount(k, es, hart) > InFront(k.t, c, hart)
    ensures RunsIn(k, es, c)
    decreases |es|
  {
    hide Apply, Enabled, Good, Stable, InFront, Switches, Q;
    var k' := Apply(k, es[0]);
    StepSane(k, es[0]);
    GoodShape(k');
    StepNearer(k, es[0], c, hart);
    if !(IsPcb(c) && k'.t.status[c] == RUNNING) {
      BoundedBypass(k', es[1..], c, hart);
    }
  }

  // ---------------------------------------------------------------- initialising an object anew

  /** A queue emptied by resetting its head strands whoever was on it. */
  lemma Strands(t: Tasks, t': Tasks, h: Head)
    requires Queued(t) && Q(t, h) != [] && Sized(t') && t'.at == t.at && Q(t', h) == []
    ensures !Queued(t')
  {
    OfQueue(t, h, 0);
    var c := Q(t, h)[0];
    assert t'.at[c] == On(h) && c !in Q(t', t'.at[c].h);
  }

  /** `do_mbox_open` of a new name is sound exactly when nobody sleeps on the entry it takes. */
  lemma ReopenSoundExactly(k: K, name: string)
    requires Sane(k) && First(k.x.boxes, (r: Box) => r.active && r.name == name) == OBJECTS
    requires First(k.x.boxes, (r: Box) => !r.active) < OBJECTS
    ensures var f := First(k.x.boxes, (r: Box) => !r.active);
            Sane(OpenStep(k, name)) <==> Q(k.t, Empty(f)) == [] && Q(k.t, Full(f)) == []
  {
    hide Waiting, Owned, Counted, Streams, Queued;
    var f := First(k.x.boxes, (r: Box) => !r.active);
    var k' := OpenStep(k, name);
    if Q(k.t, Empty(f)) != [] {
      Strands(k.t, k'.t, Empty(f));
    } else if Q(k.t, Full(f)) != [] {
      Strands(k.t, k'.t, Full(f));
    } else {
      OpenSane(k, Event(0, 0, Open(name)), name);
    }
  }

  /** `do_barrier_init` and `do_condition_init` likewise. */
  lemma ReinitSoundExactly(k: K, goal: int)
    requires Sane(k)
    ensures First(k.x.bars, (r: Barrier) => !r.active) < OBJECTS ==>
              (Sane(BarrierInitStep(k, goal)) <==> Q(k.t, Bar(First(k.x.bars, (r: Barrier) => !r.active))) == [])
    ensures First(k.x.conds, c => !c) < OBJECTS ==>
              (Sane(CondInitStep(k)) <==> Q(k.t, Cond(First(k.x.conds, c => !c))) == [])
  {
    hide Waiting, Owned, Counted, Streams, Queued;
    var b := First(k.x.bars, (r: Barrier) => !r.active);
    if b < OBJECTS {
      if Q(k.t, Bar(b)) != [] {
        Strands(k.t, BarrierInitStep(k, goal).t, Bar(b));
      } else {
        BarrierInitSane(k, goal);
      }
    }
    var i := First(k.x.conds, c => !c);
    if i < OBJECTS {
      if Q(k.t, Cond(i)) != [] {
        Strands(k.t, CondInitStep(k).t, Cond(i));
      } else {
        CondInitSane(k);
      }
    }
  }

  /** `do_mbox_close` frees the entry without waking those who sleep on it. */
  lemma CloseKeepsSleepers(k: K, m: int)
    requires Sane(k) && IsObj(m) && k.x.boxes[m].cite <= 1
    ensures Sane(CloseStep(k, m)) && !CloseStep(k, m).x.boxes[m].active && CloseStep(k, m).t == k.t
  {
    CloseSane(k, m);
  }

  lemma SaneShape(k: K)
    requires Sane(k)
    ensures Shape(k)
  {
  }

  lemma {:induction false} NoneNamed(s: seq<Box>, name: string)
    requires forall i :: 0 <= i < |s| ==> !s[i].active
    ensures First(s, (r: Box) => r.active && r.name == name) == |s|
            && (s != [] ==> First(s, (r: Box) => !r.active) == 0)
  {
    if s != [] {
      NoneNamed(s[1..], name);
    }
  }
}
