/** Runs from boot in which the code falls short of its intent. */
module Scenarios {
  import opened Rings
  import opened Sched
  import opened Syscalls
  import opened Runs
  import opened Exclusion

  // ---------------------------------------------------------------- building a run

  lemma {:induction false} Extend(k: K, es: seq<Event>, e: Event)
    requires IsRun(k, es) && Shape(Final(k, es)) && Enabled(Final(k, es), e)
    ensures IsRun(k, es + [e]) && Final(k, es + [e]) == Apply(Final(k, es), e)
    decreases |es|
  {
    hide Apply, Enabled;
    if es == [] {
      assert [] + [e] == [e] && [e][1..] == [];
    } else {
      assert (es + [e])[0] == es[0] && (es + [e])[1..] == es[1..] + [e];
      Extend(Apply(k, es[0]), es[1..], e);
    }
  }

  /** Hart 0 runs c (or nothing), hart 1 idles; `live` are the living processes, all allowed on hart 0; the others of
      them are in `ready`, or asleep but not on a timer. */
  ghost predicate Scene(k: K, c: int, ready: seq<int>, live: set<int>) {
    && Sane(k) && k.t.cur == [c, IDLE] && Q(k.t, Ready) == ready && Q(k.t, Sleep) == []
    && (forall d :: IsPcb(d) ==> (k.t.status[d] != EXITED <==> d in live))
    && (forall d :: d in live ==> IsPcb(d) && k.t.mask[d] == {0})
  }

  /** Everybody else's queues are as they were. */
  ghost predicate SameQueues(t: Tasks, t': Tasks) {
    forall h :: h != Ready && h != Sleep ==> Q(t', h) == Q(t, h)
  }

  // ---------------------------------------------------------------- switching

  lemma NoneDue(t: Tasks, now: int)
    requires Sized(t) && Q(t, Sleep) == []
    ensures var u := WakeDue(t, now);
            && Q(u, Ready) == Q(t, Ready) && Q(u, Sleep) == [] && SameQueues(t, u)
            && u.status == t.status && u.at == t.at && u.cur == t.cur && u.mask == t.mask
  {
    assert Q(t, Ready) + [] == Q(t, Ready);
  }

  /** The process at the head of the ready queue, which may run on the hart, is switched to. */
  lemma RunFirst(t: Tasks, hart: int, a: int, rest: seq<int>)
    requires Inside(t, hart) && IsHart(hart) && Q(Yielded(t, hart), Ready) == [a] + rest && Allowed(t, hart, a)
    ensures var t' := Next(t, hart);
            && Sized(t') && IsPcb(a) && t'.cur == t.cur[hart := a] && Q(t', Ready) == rest
               && Q(t', Sleep) == Q(t, Sleep) && SameQueues(t, t')
            && t'.mask == t.mask && (forall d :: IsPcb(d) ==>
                                     (t'.status[d] == EXITED <==> Yielded(t, hart).status[d] == EXITED && d != a))
  {
    hide Queued;
    var u := Yielded(t, hart);
    YieldedInv(t, hart);
    DequeueQueued(u, Ready, 0);
    assert Pick(u, Q(u, Ready), hart) == 0;
    assert Without([a] + rest, 0) == rest;
  }

  lemma DispatchTo(t: Tasks, hart: int, now: int, a: int, rest: seq<int>)
    requires Inside(t, hart) && IsHart(hart) && Q(t, Sleep) == [] && Allowed(t, hart, a)
    requires Q(t, Ready) + (if Busy(t, hart) then [t.cur[hart]] else []) == [a] + rest
    ensures var t' := Dispatch(t, hart, now);
            && Sized(t') && IsPcb(a) && t'.cur == t.cur[hart := a] && Q(t', Ready) == rest && Q(t', Sleep) == []
               && SameQueues(t, t')
            && t'.mask == t.mask && (forall d :: IsPcb(d) ==>
                                     (t'.status[d] == EXITED <==> t.status[d] == EXITED && d != a))
  {
    hide Queued, Wake, Next, Later, Due;
    NoneDue(t, now);
    DueInv(t, hart, now);
    var u := WakeDue(t, now);
    assert Q(Yielded(u, hart), Ready) == [a] + rest;
    RunFirst(u, hart, a, rest);
  }

  // ---------------------------------------------------------------- steps on a scene

  lemma SceneTick(k: K, c: int, ready: seq<int>, live: set<int>, e: Event, a: int, rest: seq<int>)
    requires Scene(k, c, ready, live) && e == Event(0, e.now, Tick) && a in live
    requires ready + (if c == IDLE then [] else [c]) == [a] + rest
    ensures Shape(k) && Enabled(k, e)
    ensures var k' := Apply(k, e); Scene(k', a, rest, live) && SameQueues(k.t, k'.t) && k'.x == k.x && k'.y == k.y
  {
    hide Waiting, Owned, Counted, Streams, Queued, Dispatch, SameQueues;
    LocksBounded(k);
    StepSane(k, e);
    Enter(k.t, 0);
    assert Busy(k.t, 0) <==> c != IDLE;
    DispatchTo(k.t, 0, e.now, a, rest);
  }

  lemma LocksBounded(k: K)
    requires Good(k)
    ensures 0 <= k.x.nlocks <= OBJECTS
  {
  }

  /** The process that runs goes to sleep on h; the head of the ready queue is switched to. */
  lemma ScenePark(k: K, c: int, ready: seq<int>, live: set<int>, e: Event, h: Head, u: K, a: int, rest: seq<int>)
    requires Scene(k, c, ready, live) && c != IDLE && e.hart == 0 && a in live && ready == [a] + rest
    requires Busy(k.t, 0) && h != Ready && h != Sleep && u.t == Block(k.t, c, h)
    requires Good(u) && Inside(u.t, 0)
    ensures var k' := Switched(u, 0, e.now);
            && Scene(k', a, rest, live) && k'.x == u.x && k'.y == u.y && Q(k'.t, h) == Q(k.t, h) + [c]
            && forall g :: g != Ready && g != Sleep && g != h ==> Q(k'.t, g) == Q(k.t, g)
  {
    hide Waiting, Owned, Counted, Streams, Queued, Dispatch, SameQueues;
    SwitchedGood(u, 0, e.now);
    assert !Busy(u.t, 0) && Q(u.t, Ready) == ready && Q(u.t, Sleep) == [] && Q(u.t, h) == Q(k.t, h) + [c];
    DispatchTo(u.t, 0, e.now, a, rest);
    SameQueuesAt(u.t, Dispatch(u.t, 0, e.now));
  }

  lemma SameQueuesAt(t: Tasks, t': Tasks)
    requires SameQueues(t, t')
    ensures forall h :: h != Ready && h != Sleep ==> Q(t', h) == Q(t, h)
  {
  }

  /** The next entry of the table becomes a process. */
  lemma SceneSpawn(k: K, c: int, ready: seq<int>, live: set<int>, i: int, x: Sync, pid: int, tid: int)
    requires Scene(k, c, ready, live) && IsPcb(i) && (forall d :: d in live <==> 0 <= d < i)
    requires Good(k.(x := x))
    ensures FreePcb(k) == i
    ensures var k' := Started(k.(x := x), i, pid, tid, {0});
            && Scene(k', c, ready + [i], live + {i}) && (forall h :: h != Ready ==> Q(k'.t, h) == Q(k.t, h))
  {
    hide Waiting, Owned, Counted, Streams, Queued, First;
    FirstIs(k, i);
    NoWaiters(k, IDLE, i);
    StartedGood(k.(x := x), IDLE, i, pid, tid, {0});
  }

  lemma FirstIs(k: K, i: int)
    requires Shape(k) && IsPcb(i) && k.t.status[i] == EXITED && forall d :: 0 <= d < i ==> k.t.status[d] != EXITED
    ensures FreePcb(k) == i
  {
    hide First;
  }

  // ---------------------------------------------------------------- the beginning of every scenario

  function Start(): K {
    Boots(seq(N, c => {}), seq(N, c => 0), seq(N, c => 0), seq(N, c => 0), {})
  }

  /** Only process table entries have been filled: the objects are as at boot, nobody is inside the kernel or asleep. */
  ghost predicate Untouched(k: K) {
    && Shape(k) && k.y == Start().y
    && k.x.locks == Start().x.locks && k.x.nlocks == 0 && k.x.bars == Start().x.bars && k.x.conds == Start().x.conds
    && k.x.boxes == Start().x.boxes
    && (forall c :: IsPcb(c) ==> k.x.cont[c] == Done) && (forall h :: h != Ready ==> Q(k.t, h) == [])
  }

  lemma StartScene()
    ensures Scene(Start(), IDLE, [], {}) && Untouched(Start()) && Start().x.lastPid == 0
  {
    hide Good, Stable;
    BootSane(seq(N, c => {}), seq(N, c => 0), seq(N, c => 0), seq(N, c => 0), {});
  }

  /** Process 0, pid 1, is started and runs on hart 0. */
  lemma OneRuns() returns (es: seq<Event>, k: K)
    ensures IsRun(Start(), es) && Final(Start(), es) == k && Scene(k, 0, [], {0}) && Untouched(k)
    ensures k.x.pid[0] == 1 && k.x.lastPid == 1
  {
    hide Start, Sane, Good, Apply, Enabled, Started, Spawned;
    var k0 := Start();
    StartScene();
    var e := Event(0, 0, Boot({0}));
    BootStep(k0, e);
    Extend(k0, [], e);
    var k1 := Apply(k0, e);
    var f := Event(0, 0, Tick);
    SceneTick(k1, IDLE, [0], {0}, f, 0, []);
    Extend(k0, [] + [e], f);
    k := Apply(k1, f);
    es := [] + [e] + [f];
    SaneShape(k);
    TickUntouched(k1, k);
  }

  lemma TickUntouched(k: K, k': K)
    requires Untouched(k) && Shape(k') && k'.x == k.x && k'.y == k.y && SameQueues(k.t, k'.t) && Q(k'.t, Sleep) == []
    ensures Untouched(k')
  {
  }

  lemma BootStep(k: K, e: Event)
    requires Scene(k, IDLE, [], {}) && Untouched(k) && e == Event(0, e.now, Boot({0}))
    ensures Shape(k) && Enabled(k, e)
    ensures var k' := Apply(k, e);
            Scene(k', IDLE, [0], {0}) && Untouched(k') && k'.x.pid[0] == k.x.lastPid + 1
              && k'.x.lastPid == k.x.lastPid + 1
  {
    hide Waiting, Owned, Counted, Streams, Queued, First, FreePcb, Start, Inside;
    var x' := k.x.(lastPid := k.x.lastPid + 1);
    SyncGood(k, x');
    SceneSpawn(k, IDLE, [], {}, 0, x', k.x.lastPid + 1, 0);
    assert [] + [0] == [0] && {} + {0} == {0};
  }

  /** The running process 0 executes another program: entry i gets the next pid and is ready. */
  lemma ExecScene(k: K, ready: seq<int>, live: set<int>, e: Event, i: int)
    requires Scene(k, 0, ready, live) && IsPcb(i) && (forall d :: d in live <==> 0 <= d < i)
             && e == Event(0, e.now, Exec) && 0 in live
    requires k.x.cont[0] == Done
    ensures Shape(k) && Enabled(k, e)
    ensures var k' := Apply(k, e);
            && Scene(k', 0, ready + [i], live + {i}) && k'.y == k.y
               && (forall h :: h != Ready ==> Q(k'.t, h) == Q(k.t, h))
            && k'.x == k.x.(pid := k.x.pid[i := k.x.lastPid + 1], tid := k.x.tid[i := 0], cont := k.x.cont[i := Done],
                            lastPid := k.x.lastPid + 1)
  {
    hide Waiting, Owned, Counted, Streams, Queued, First, FreePcb, Inside, Spawned;
    LocksBounded(k);
    SceneBusy(k, 0, ready, live);
    var x' := k.x.(lastPid := k.x.lastPid + 1);
    SyncGood(k, x');
    SceneSpawn(k, 0, ready, live, i, x', k.x.lastPid + 1, 0);
  }

  lemma SceneBusy(k: K, c: int, ready: seq<int>, live: set<int>)
    requires Scene(k, c, ready, live) && c in live
    ensures Busy(k.t, 0) && k.t.cur[0] == c
  {
  }

  /** The running process 0 makes a thread: entry i gets its pid. */
  lemma ThreadScene(k: K, ready: seq<int>, live: set<int>, e: Event, i: int)
    requires Scene(k, 0, ready, live) && IsPcb(i) && (forall d :: d in live <==> 0 <= d < i)
             && e == Event(0, e.now, ThreadCreate(1))
    requires 0 in live && k.x.cont[0] == Done
    ensures Shape(k) && Enabled(k, e)
    ensures var k' := Apply(k, e);
            && Scene(k', 0, ready + [i], live + {i}) && k'.y == k.y
               && (forall h :: h != Ready ==> Q(k'.t, h) == Q(k.t, h))
            && k'.x == k.x.(pid := k.x.pid[i := k.x.pid[0]], tid := k.x.tid[i := 1], cont := k.x.cont[i := Done])
  {
    hide Waiting, Owned, Counted, Streams, Queued, First, FreePcb, Inside, Spawned;
    LocksBounded(k);
    SceneBusy(k, 0, ready, live);
    SceneSpawn(k, 0, ready, live, i, k.x, k.x.pid[0], 1);
  }

  // ---------------------------------------------------------------- two processes in one critical section

  /** The first lock is initialised. */
  lemma LockScene(k: K, c: int, ready: seq<int>, live: set<int>, e: Event)
    requires Scene(k, c, ready, live) && c in live && k.x.cont[c] == Done && k.x.nlocks == 0 && e.hart == 0
             && e.op.LockInit?
    ensures Shape(k) && Enabled(k, e)
    ensures var k' := Apply(k, e);
            && Scene(k', c, ready, live) && k'.t == k.t && k'.y == k.y
            && k'.x == k.x.(nlocks := 1, locks := k'.x.locks) && k'.x.locks[0].locked == k.x.locks[0].locked
  {
    hide Waiting, Owned, Counted, Streams, Queued, Inside;
    SceneBusy(k, c, ready, live);
    StepSane(k, e);
    assert k.x.locks[..0] == [];
  }

  /** The running process takes a free lock. */
  lemma TakeScene(k: K, c: int, ready: seq<int>, live: set<int>, e: Event, l: int)
    requires Scene(k, c, ready, live) && c in live && k.x.cont[c] == Done && 0 <= l < k.x.nlocks && IsObj(l)
             && !k.x.locks[l].locked
    requires e == Event(0, e.now, Acquire(l))
    ensures Shape(k) && Enabled(k, e)
    ensures var k' := Apply(k, e);
            && Scene(k', c, ready, live) && k'.t == k.t && k'.x.pid == k.x.pid && k'.x.nlocks == k.x.nlocks
            && k'.x.cont == k.x.cont[c := Done]
            && k'.x.locks[l].locked && k'.x.locks[l].owner == k.x.pid[c]
            && k'.y.taker[l] == c && k'.y.held[l] == k.y.held[l] + {c}
  {
    hide Waiting, Owned, Counted, Streams, Queued, Inside;
    LocksBounded(k);
    SceneBusy(k, c, ready, live);
    StepSane(k, e);
  }

  lemma WakeEmpty(t: Tasks, h: Head)
    requires Sized(t) && h != Ready && Q(t, h) == []
    ensures var u := WakeAll(t, h);
            Sized(u) && u.status == t.status && u.cur == t.cur && u.mask == t.mask && forall g :: Q(u, g) == Q(t, g)
  {
    assert Q(t, Ready) + [] == Q(t, Ready);
  }

  /** With nobody asleep on any lock, releasing locks moves nobody. */
  lemma {:induction false} ReleasedQuiet(k: K, p: int, i: nat)
    requires Shape(k) && forall l :: IsObj(l) ==> Q(k.t, Lock(l)) == []
    ensures var r := Released(k, p, i);
            r.t.status == k.t.status && r.t.cur == k.t.cur && r.t.mask == k.t.mask && forall g :: Q(r.t, g) == Q(k.t, g)
    decreases OBJECTS - i
  {
    hide WakeAll, Q;
    if i >= k.x.nlocks || i >= OBJECTS {
    } else if k.x.locks[i].locked && k.x.locks[i].owner == p {
      WakeEmpty(k.t, Lock(i));
      ReleasedQuiet(Unlocked(k, i), p, i + 1);
    } else {
      ReleasedQuiet(k, p, i + 1);
    }
  }

  lemma UnburdenedQuiet(k: K, c: int)
    requires Shape(k) && IsPcb(c) && Q(k.t, Waiters(c)) == [] && forall l :: IsObj(l) ==> Q(k.t, Lock(l)) == []
    ensures var r := Unburdened(k, c);
            r.t.status == k.t.status && r.t.cur == k.t.cur && r.t.mask == k.t.mask && forall g :: Q(r.t, g) == Q(k.t, g)
  {
    hide WakeAll, Q;
    WakeEmpty(k.t, Waiters(c));
    ReleasedQuiet(Woken(k, Waiters(c)), k.x.pid[c], 0);
  }

  /** The running process exits, with nobody waiting for it or for a lock. */
  lemma ExitScene(k: K, c: int, ready: seq<int>, live: set<int>, e: Event, a: int, rest: seq<int>)
    requires Scene(k, c, ready, live) && c in live && k.x.cont[c] == Done && e == Event(0, e.now, Exit)
    requires ready == [a] + rest && a in live && a != c && Q(k.t, Waiters(c)) == []
             && forall l :: IsObj(l) ==> Q(k.t, Lock(l)) == []
    ensures Shape(k) && Enabled(k, e)
    ensures var k' := Apply(k, e);
            && Scene(k', a, rest, live - {c}) && Cut(k, k', k.x.pid[c], {c}) && k'.x == k.x.(locks := k'.x.locks)
  {
    hide Waiting, Owned, Counted, Streams, Queued, Dispatch, SameQueues, Cut, Unburdened, Grown;
    LocksBounded(k);
    SceneBusy(k, c, ready, live);
    StepSane(k, e);
    Enter(k.t, 0);
    ExitCut(k, e);
    UnburdenedQuiet(k, c);
    UnburdenedGood(k, 0, c);
    var u := Dead(Unburdened(k, c), c);
    DeadGood(Unburdened(k, c), 0, c);
    assert !Busy(u.t, 0) && Q(u.t, Ready) == ready && Q(u.t, Sleep) == [] && u.t.cur == k.t.cur && u.t.mask == k.t.mask;
    DispatchTo(u.t, 0, e.now, a, rest);
  }

  /** Processes 0 and 1 are threads of pid 1, process 2 is of pid 2; process 0 runs. */
  ghost predicate Trio(k: K) {
    && Scene(k, 0, [1, 2], {0, 1, 2}) && Shape(k) && k.x.pid[0] == 1 && k.x.pid[1] == 1 && k.x.pid[2] == 2
    && k.x.nlocks == 1 && !k.x.locks[0].locked && k.y.held[0] == {}
    && (forall c :: IsPcb(c) ==> k.x.cont[c] == Done) && (forall h :: h != Ready ==> Q(k.t, h) == [])
  }

  lemma TrioRuns() returns (es: seq<Event>, k: K)
    ensures IsRun(Start(), es) && Final(Start(), es) == k && Trio(k)
  {
    hide Start, Sane, Good, Apply, Enabled, Untouched, Final, IsRun;
    es, k := OneRuns();
    UntouchedFacts(k);
    var e := Event(0, 0, ThreadCreate(1));
    ThreadScene(k, [], {0}, e, 1);
    assert [] + [1] == [1] && {0} + {1} == {0, 1};
    es, k := Then(es, k, e);
    SaneShape(k);
    e := Event(0, 0, LockInit(7));
    LockScene(k, 0, [1], {0, 1}, e);
    es, k := Then(es, k, e);
    SaneShape(k);
    e := Event(0, 0, Exec);
    ExecScene(k, [1], {0, 1}, e, 2);
    assert [1] + [2] == [1, 2] && {0, 1} + {2} == {0, 1, 2};
    es, k := Then(es, k, e);
    SaneShape(k);
  }

  /** A thread's exit frees the lock its sibling holds, and another process takes it: two living processes are between
      acquiring and releasing lock 0. */
  lemma SiblingExitRobs() returns (es: seq<Event>, k: K)
    ensures IsRun(Start(), es) && Final(Start(), es) == k && Sane(k) && Shape(k)
    ensures 0 in k.y.held[0] && 2 in k.y.held[0] && k.t.status[0] != EXITED && k.t.status[2] != EXITED
            && k.x.pid[0] != k.x.pid[2]
  {
    hide Start, Sane, Good, Apply, Enabled, Final, IsRun;
    es, k := TrioRuns();
    var e := Event(0, 0, Acquire(0));
    TakeScene(k, 0, [1, 2], {0, 1, 2}, e, 0);
    es, k := Then(es, k, e);
    SaneShape(k);
    e := Event(0, 0, Tick);
    assert [1, 2] + [0] == [1] + [2, 0];
    SceneTick(k, 0, [1, 2], {0, 1, 2}, e, 1, [2, 0]);
    SameQueuesAt(k.t, Apply(k, e).t);
    es, k := Then(es, k, e);
    SaneShape(k);
    e := Event(0, 0, Exit);
    assert [2, 0] == [2] + [0];
    ExitScene(k, 1, [2, 0], {0, 1, 2}, e, 2, [0]);
    CutAt(k, Apply(k, e), 1, {1}, 0);
    assert {0, 1, 2} - {1} == {0, 2} && {0} - {1} == {0};
    es, k := Then(es, k, e);
    e := Event(0, 0, Acquire(0));
    TakeScene(k, 2, [0], {0, 2}, e, 0);
    es, k := Then(es, k, e);
    SaneShape(k);
  }

  lemma CutAt(k: K, k': K, p: int, dies: set<int>, l: int)
    requires Cut(k, k', p, dies) && IsObj(l)
    ensures Shape(k) && Shape(k') && (k'.x.locks[l].locked <==> k.x.locks[l].locked && k.x.locks[l].owner != p)
    ensures k'.y.held[l] == k.y.held[l] - dies
  {
  }

  /** A run and one more step. */
  lemma Then(es: seq<Event>, k: K, e: Event) returns (es': seq<Event>, k': K)
    requires IsRun(Start(), es) && Final(Start(), es) == k && Shape(k) && Enabled(k, e)
    ensures es' == es + [e] && k' == Apply(k, e) && IsRun(Start(), es') && Final(Start(), es') == k'
  {
    hide Start, Apply, Enabled;
    Extend(Start(), es, e);
    es', k' := es + [e], Apply(k, e);
  }

  lemma UntouchedFacts(k: K)
    requires Untouched(k)
    ensures Shape(k) && k.x.nlocks == 0 && (forall c :: IsPcb(c) ==> k.x.cont[c] == Done)
            && (forall h :: h != Ready ==> Q(k.t, h) == [])
    ensures forall l :: IsObj(l) ==> !k.x.locks[l].locked && k.y.held[l] == {}
    ensures forall b :: IsObj(b) ==> !k.x.bars[b].active && !k.x.boxes[b].active && k.y.lost[b] == 0
  {
  }

  // ---------------------------------------------------------------- sleepers lost

  /** Process 0, pid 1, runs and process 1, pid 2, is ready. */
  ghost predicate Duo(k: K) {
    && Scene(k, 0, [1], {0, 1}) && Shape(k) && k.x.pid[0] == 1 && k.x.pid[1] == 2
    && (forall c :: IsPcb(c) ==> k.x.cont[c] == Done) && (forall h :: h != Ready ==> Q(k.t, h) == [])
    && (forall b :: IsObj(b) ==> !k.x.bars[b].active && !k.x.boxes[b].active && k.y.lost[b] == 0)
  }

  lemma DuoRuns() returns (es: seq<Event>, k: K)
    ensures IsRun(Start(), es) && Final(Start(), es) == k && Duo(k)
  {
    hide Start, Sane, Good, Apply, Enabled, Untouched, Final, IsRun;
    es, k := OneRuns();
    UntouchedFacts(k);
    var e := Event(0, 0, Exec);
    ExecScene(k, [], {0}, e, 1);
    assert [] + [1] == [1] && {0} + {1} == {0, 1};
    es, k := Then(es, k, e);
    SaneShape(k);
  }

  /** c is blocked, and on no queue: nothing can wake it. */
  ghost predicate Lost(t: Tasks, c: int) {
    Sized(t) && IsPcb(c) && t.status[c] == BLOCKED && forall h :: c !in Q(t, h)
  }

  /** Resetting the head of the queue c sleeps on loses c. */
  lemma ResetLoses(t: Tasks, t': Tasks, c: int, h: Head)
    requires Inv(t) && h != Ready && c in Q(t, h) && Sized(t') && t'.status == t.status && Q(t', h) == []
    requires forall g :: g != h ==> Q(t', g) == Q(t, g) || Q(t', g) == []
    ensures Lost(t', c)
  {
    OnlyPlace(t, c, h);
    forall g ensures c !in Q(t', g) {
      OnlyPlace(t, c, g);
    }
  }

  /** A fresh mailbox 0 is opened. */
  lemma OpenScene(k: K, c: int, ready: seq<int>, live: set<int>, e: Event, name: string)
    requires Scene(k, c, ready, live) && c in live && k.x.cont[c] == Done && e == Event(0, e.now, Open(name))
    requires (forall b :: IsObj(b) ==> !k.x.boxes[b].active) && forall h :: h != Ready ==> Q(k.t, h) == []
    ensures Shape(k) && Enabled(k, e)
    ensures var k' := Apply(k, e);
            && Scene(k', c, ready, live) && k'.x == k.x.(boxes := k.x.boxes[0 := Box(true, name, 1, [])])
            && forall h :: h != Ready ==> Q(k'.t, h) == []
  {
    hide Good, Inside, First, Apply, Enabled, Reset;
    GoodShape(k);
    SceneBusy(k, c, ready, live);
    NoneNamed(k.x.boxes, name);
    UserStep(k, c, ready, live, e);
    StepSane(k, e);
    OpenApplies(k, e, name);
    ResetInv(k.t, IDLE, Empty(0));
    ResetInv(Reset(k.t, Empty(0)), IDLE, Full(0));
    ResetRest(k.t, Empty(0));
    ResetRest(Reset(k.t, Empty(0)), Full(0));
  }

  lemma ResetRest(t: Tasks, h: Head)
    ensures var u := Reset(t, h); u.status == t.status && u.cur == t.cur && u.mask == t.mask
  {
  }

  lemma OpenApplies(k: K, e: Event, name: string)
    requires Shape(k) && Enabled(k, e) && e.op == Open(name)
    requires First(k.x.boxes, (r: Box) => r.active && r.name == name) == OBJECTS
             && First(k.x.boxes, (r: Box) => !r.active) == 0
    ensures Apply(k, e) == BoxOpened(k, 0, name)
  {
    hide Enabled, First, BoxOpened;
  }

  /** The process that runs, being out of the kernel, may make any proper call. */
  lemma UserStep(k: K, c: int, ready: seq<int>, live: set<int>, e: Event)
    requires Scene(k, c, ready, live) && c in live && k.x.cont[c] == Done && e.hart == 0 && Busy(k.t, 0)
    requires e.op != Tick && e.op != Resume && !e.op.Boot? && Proper(k, 0, e.op)
    ensures Shape(k) && Enabled(k, e)
  {
    hide Waiting, Owned, Counted, Streams, Queued, Inside, Proper;
    LocksBounded(k);
  }

  /** The running process finds the mailbox empty and sleeps. */
  lemma RecvScene(k: K, c: int, live: set<int>, e: Event, a: int)
    requires Scene(k, c, [a], live) && c in live && a in live && k.x.cont[c] == Done && e == Event(0, e.now, Recv(0, 1))
    requires k.x.boxes[0].buf == [] && forall h :: h != Ready ==> Q(k.t, h) == []
    ensures Shape(k) && Enabled(k, e)
    ensures var k' := Apply(k, e);
            && Scene(k', a, [], live) && k'.x == k.x.(cont := k.x.cont[c := Receiving(0, 1)])
               && Q(k'.t, Empty(0)) == [c]
            && forall h :: h != Ready && h != Empty(0) ==> Q(k'.t, h) == []
  {
    hide Good, Inside, Dispatch, Apply, Enabled, Queued;
    GoodShape(k);
    SceneBusy(k, c, [a], live);
    UserStep(k, c, [a], live, e);
    Enter(k.t, 0);
    ParkedGood(k, 0, Empty(0), Receiving(0, 1));
    RecvApplies(k, e);
    assert [a] == [a] + [] && [] + [c] == [c];
    ScenePark(k, c, [a], live, e, Empty(0), Parked(k, 0, Empty(0), Receiving(0, 1)), a, []);
  }

  lemma RecvApplies(k: K, e: Event)
    requires Shape(k) && Enabled(k, e) && e == Event(0, e.now, Recv(0, 1)) && Busy(k.t, 0) && k.x.boxes[0].buf == []
    ensures Apply(k, e) == Switched(Parked(k, 0, Empty(0), Receiving(0, 1)), 0, e.now)
  {
    hide Enabled, Switched, Parked;
  }

  lemma CloseScene(k: K, c: int, ready: seq<int>, live: set<int>, e: Event)
    requires Scene(k, c, ready, live) && c in live && k.x.cont[c] == Done && e == Event(0, e.now, Close(0))
             && k.x.boxes[0].cite == 1
    ensures Shape(k) && Enabled(k, e)
    ensures var k' := Apply(k, e);
            && Scene(k', c, ready, live) && k'.t == k.t && k'.x == k.x.(boxes := k'.x.boxes)
            && k'.x.boxes == k.x.boxes[0 := k'.x.boxes[0]] && !k'.x.boxes[0].active
  {
    hide Waiting, Owned, Counted, Streams, Queued, Inside;
    LocksBounded(k);
    SceneBusy(k, c, ready, live);
    StepSane(k, e);
  }

  /** A run after which opening a mailbox, by the process then running, loses process 0 for ever. */
  lemma ReopenLosesSleeper() returns (es: seq<Event>, k: K)
    ensures IsRun(Start(), es) && Final(Start(), es) == k && Sane(k) && Shape(k)
    ensures Busy(k.t, 0) && k.x.cont[k.t.cur[0]] == Done
    ensures !Sane(OpenStep(k, "b")) && Lost(OpenStep(k, "b").t, 0)
  {
    hide Start, Sane, Good, Apply, Enabled, Final, IsRun, First, OpenStep;
    es, k := DuoRuns();
    var e := Event(0, 0, Open("a"));
    OpenScene(k, 0, [1], {0, 1}, e, "a");
    es, k := Then(es, k, e);
    SaneShape(k);
    e := Event(0, 0, Recv(0, 1));
    RecvScene(k, 0, {0, 1}, e, 1);
    es, k := Then(es, k, e);
    SaneShape(k);
    e := Event(0, 0, Close(0));
    CloseScene(k, 1, [], {0, 1}, e);
    es, k := Then(es, k, e);
    SaneShape(k);
    SceneBusy(k, 1, [], {0, 1});
    ReopenStrands(k, 1, [], {0, 1}, "b");
  }

  lemma ReopenStrands(k: K, c: int, ready: seq<int>, live: set<int>, name: string)
    requires Scene(k, c, ready, live) && 0 in Q(k.t, Empty(0)) && forall b :: IsObj(b) ==> !k.x.boxes[b].active
    ensures !Sane(OpenStep(k, name)) && Lost(OpenStep(k, name).t, 0)
  {
    hide Waiting, Owned, Counted, Streams, Queued, First;
    NoneNamed(k.x.boxes, name);
    ReopenSoundExactly(k, name);
    ResetLoses(k.t, OpenStep(k, name).t, 0, Empty(0));
  }

  // ---------------------------------------------------------------- barriers

  /** Barrier 0 is set up for two. */
  lemma BarrierInitScene(k: K, c: int, ready: seq<int>, live: set<int>, e: Event)
    requires Scene(k, c, ready, live) && c in live && k.x.cont[c] == Done && e == Event(0, e.now, BarrierInit(2))
    requires (forall b :: IsObj(b) ==> !k.x.bars[b].active) && forall h :: h != Ready ==> Q(k.t, h) == []
    ensures Shape(k) && Enabled(k, e)
    ensures var k' := Apply(k, e);
            && Scene(k', c, ready, live) && k'.x == k.x.(bars := k.x.bars[0 := Barrier(true, 2, 0)])
               && k'.y.rounds[0] == 0
            && k'.y.lost[0] == 0 && forall h :: h != Ready ==> Q(k'.t, h) == []
  {
    hide Good, Inside, First, Apply, Enabled, Reset;
    GoodShape(k);
    SceneBusy(k, c, ready, live);
    FirstInactive(k.x.bars);
    UserStep(k, c, ready, live, e);
    StepSane(k, e);
    BarrierApplies(k, e);
    ResetInv(k.t, IDLE, Bar(0));
    ResetRest(k.t, Bar(0));
  }

  lemma BarrierApplies(k: K, e: Event)
    requires Shape(k) && Enabled(k, e) && e.hart == 0
    ensures e.op == BarrierInit(2) && !k.x.bars[0].active ==> Apply(k, e) == BarOpened(k, 0, 2)
    ensures e.op == BarrierWait(0) && Busy(k.t, 0) ==> Apply(k, e) == BarrierStep(k, e, 0)
  {
    hide Enabled, First, BarOpened, BarrierStep;
    if !k.x.bars[0].active {
      FirstInactive(k.x.bars);
    }
  }

  lemma FirstInactive(s: seq<Barrier>)
    requires s != [] && !s[0].active
    ensures First(s, (r: Barrier) => !r.active) == 0
  {
  }

  /** The running process arrives first and sleeps. */
  lemma BarrierWaitScene(k: K, c: int, live: set<int>, e: Event, a: int)
    requires Scene(k, c, [a], live) && c in live && a in live && k.x.cont[c] == Done
             && e == Event(0, e.now, BarrierWait(0))
    requires k.x.bars[0].counter == 0 && k.x.bars[0].goal == 2 && forall h :: h != Ready ==> Q(k.t, h) == []
    ensures Shape(k) && Enabled(k, e)
    ensures var k' := Apply(k, e);
            && Scene(k', a, [], live) && k'.x == k.x.(cont := k.x.cont[c := Done],
                                                      bars := k.x.bars[0 := k.x.bars[0].(counter := 1)])
            && k'.y.rounds[0] == k.y.rounds[0] && k'.y.lost[0] == k.y.lost[0]
            && Q(k'.t, Bar(0)) == [c] && forall h :: h != Ready && h != Bar(0) ==> Q(k'.t, h) == []
  {
    hide Good, Inside, Dispatch, Apply, Enabled, Queued;
    GoodShape(k);
    SceneBusy(k, c, [a], live);
    UserStep(k, c, [a], live, e);
    BarrierApplies(k, e);
    Enter(k.t, 0);
    BarJoinGood(k, 0, 0);
    assert [a] == [a] + [] && [] + [c] == [c];
    ScenePark(k, c, [a], live, e, Bar(0), BarJoin(k, 0, 0), a, []);
  }

  lemma BarrierDestroyScene(k: K, c: int, ready: seq<int>, live: set<int>, e: Event)
    requires Scene(k, c, ready, live) && c in live && k.x.cont[c] == Done && e == Event(0, e.now, BarrierDestroy(0))
    requires forall h :: h != Ready ==> Q(k.t, h) == []
    ensures Shape(k) && Enabled(k, e)
    ensures var k' := Apply(k, e);
            && Scene(k', c, ready, live) && k'.x == k.x.(bars := k.x.bars[0 := k.x.bars[0].(active := false)])
            && forall h :: h != Ready ==> Q(k'.t, h) == []
  {
    hide Waiting, Owned, Counted, Streams, Queued, Inside, WakeAll;
    LocksBounded(k);
    SceneBusy(k, c, ready, live);
    WakeEmpty(k.t, Bar(0));
    StepSane(k, e);
  }

  /** A run after which setting up a barrier loses process 0, which waits at the one destroyed before. */
  lemma ReinitLosesSleeper() returns (es: seq<Event>, k: K)
    ensures IsRun(Start(), es) && Final(Start(), es) == k && Sane(k) && Shape(k)
    ensures Busy(k.t, 0) && k.x.cont[k.t.cur[0]] == Done
    ensures !Sane(BarrierInitStep(k, 2)) && Lost(BarrierInitStep(k, 2).t, 0)
  {
    hide Start, Sane, Good, Apply, Enabled, Final, IsRun, First, BarrierInitStep;
    es, k := DuoRuns();
    var e := Event(0, 0, BarrierInit(2));
    BarrierInitScene(k, 0, [1], {0, 1}, e);
    es, k := Then(es, k, e);
    SaneShape(k);
    e := Event(0, 0, BarrierDestroy(0));
    BarrierDestroyScene(k, 0, [1], {0, 1}, e);
    es, k := Then(es, k, e);
    SaneShape(k);
    e := Event(0, 0, BarrierWait(0));
    BarrierWaitScene(k, 0, {0, 1}, e, 1);
    es, k := Then(es, k, e);
    SaneShape(k);
    SceneBusy(k, 1, [], {0, 1});
    ReinitStrands(k, 1, [], {0, 1});
  }

  lemma ReinitStrands(k: K, c: int, ready: seq<int>, live: set<int>)
    requires Scene(k, c, ready, live) && 0 in Q(k.t, Bar(0)) && !k.x.bars[0].active
    ensures !Sane(BarrierInitStep(k, 2)) && Lost(BarrierInitStep(k, 2).t, 0)
  {
    hide Waiting, Owned, Counted, Streams, Queued, First;
    FirstInactive(k.x.bars);
    ReinitSoundExactly(k, 2);
    ResetLoses(k.t, BarrierInitStep(k, 2).t, 0, Bar(0));
  }

  // ---------------------------------------------------------------- a round without its arrivals

  lemma {:induction false} KillNone(k: K, e: Event, p: int, i: nat)
    requires Shape(k) && Busy(k.t, e.hart) && i <= N && forall j :: i <= j < N ==>
               k.t.status[j] == EXITED || k.x.pid[j] != p
    ensures KillStep(k, e, p, i) == k
    decreases N - i
  {
    hide Killed, ExitStep, Shape, Busy;
    if i < N {
      KillNone(k, e, p, i + 1);
    }
  }

  /** The running process 1 kills process 0, which waits at barrier 0. */
  lemma KillScene(k: K, e: Event)
    requires Scene(k, 1, [], {0, 1}) && k.x.cont[1] == Done && e == Event(0, e.now, Kill(1)) && k.x.pid[0] == 1
             && k.x.pid[1] == 2
    requires Q(k.t, Bar(0)) == [0] && forall h :: h != Ready && h != Bar(0) ==> Q(k.t, h) == []
    ensures Shape(k) && Enabled(k, e)
    ensures var k' := Apply(k, e);
            && Scene(k', 1, [], {1}) && k'.x == k.x.(locks := k'.x.locks) && k'.y.rounds == k.y.rounds
            && k'.y.lost[0] == k.y.lost[0] + 1 && forall h :: h != Ready ==> Q(k'.t, h) == []
  {
    hide Good, Queued, KillStep, Killed, Apply, Enabled, Elsewhere;
    GoodShape(k);
    SceneBusy(k, 1, [], {0, 1});
    OneBusy(k, e);
    UserStep(k, 1, [], {0, 1}, e);
    StepSane(k, e);
    OnlyPlace(k.t, 0, Bar(0));
    KilledGood(k, IDLE, 0);
    KilledOnly(k, 0);
    KilledAtBarrier(k, 0);
    KillApplies(k, e);
    KillFirst(k, e);
    KillNone(Killed(k, 0), e, 1, 1);
    assert {0, 1} - {0} == {1};
  }

  /** Nobody of pid 1 runs. */
  lemma OneBusy(k: K, e: Event)
    requires Scene(k, 1, [], {0, 1}) && k.x.pid[1] == 2 && e.op == Kill(1)
    ensures Busy(k.t, 0) && Proper(k, 0, e.op)
  {
    hide Waiting, Owned, Counted, Streams, Queued;
    SceneBusy(k, 1, [], {0, 1});
  }

  lemma KillApplies(k: K, e: Event)
    requires Shape(k) && Enabled(k, e) && e.op == Kill(1) && Busy(k.t, e.hart)
    ensures Apply(k, e) == KillStep(k, e, 1, 0)
  {
    hide Enabled, KillStep;
  }

  lemma KillFirst(k: K, e: Event)
    requires Shape(k) && Busy(k.t, e.hart) && k.t.status[0] != EXITED && k.x.pid[0] == 1 && k.t.cur[e.hart] != 0
    requires Shape(Killed(k, 0)) && Busy(Killed(k, 0).t, e.hart)
    ensures KillStep(k, e, 1, 0) == KillStep(Killed(k, 0), e, 1, 1)
  {
    hide Killed, ExitStep, Shape, Busy;
  }

  lemma KilledAtBarrier(k: K, c: int)
    requires Good(k) && Stable(k.t) && IsPcb(c) && Q(k.t, Bar(0)) == [c] && Shape(k)
    requires forall h :: h != Ready && h != Bar(0) ==> Q(k.t, h) == []
    ensures var k' := Killed(k, c);
            && k'.x == k.x.(locks := k'.x.locks) && k'.y.rounds == k.y.rounds && k'.y.lost[0] == k.y.lost[0] + 1
            && Q(k'.t, Bar(0)) == [] && (forall h :: h != Bar(0) ==> Q(k'.t, h) == Q(k.t, h))
            && k'.t.mask == k.t.mask
  {
    hide Waiting, Owned, Counted, Streams, Queued, Unburdened, Calm;
    UnburdenedGood(k, IDLE, c);
    UnburdenedQuiet(k, c);
    var r := Unburdened(k, c);
    OnlyPlace(r.t, c, Bar(0));
    assert Without([c], 0) == [];
  }

  /** The running process arrives last: the round is over. */
  lemma BarrierFullScene(k: K, c: int, ready: seq<int>, live: set<int>, e: Event)
    requires Scene(k, c, ready, live) && c in live && k.x.cont[c] == Done && e == Event(0, e.now, BarrierWait(0))
    requires k.x.bars[0].counter == 1 && k.x.bars[0].goal == 2 && Q(k.t, Bar(0)) == []
    ensures Shape(k) && Enabled(k, e)
    ensures var k' := Apply(k, e);
            Scene(k', c, ready, live) && k'.y.rounds[0] == k.y.rounds[0] + 1 && k'.x.bars[0].goal == 2
  {
    hide Waiting, Owned, Counted, Streams, Queued, Inside, WakeAll;
    LocksBounded(k);
    SceneBusy(k, c, ready, live);
    WakeEmpty(k.t, Bar(0));
    StepSane(k, e);
  }

  /** A waiter is killed, and the round of two ends with a single process alive. */
  lemma KilledWaiterEndsRound() returns (es: seq<Event>, k: K)
    ensures IsRun(Start(), es) && Final(Start(), es) == k && Sane(k) && Shape(k)
    ensures k.x.bars[0].goal == 2 && k.y.rounds[0] == 1 && forall c :: IsPcb(c) && k.t.status[c] != EXITED ==> c == 1
  {
    hide Start, Sane, Good, Apply, Enabled, Final, IsRun, First;
    es, k := DuoRuns();
    var e := Event(0, 0, BarrierInit(2));
    BarrierInitScene(k, 0, [1], {0, 1}, e);
    es, k := Then(es, k, e);
    SaneShape(k);
    e := Event(0, 0, BarrierWait(0));
    BarrierWaitScene(k, 0, {0, 1}, e, 1);
    es, k := Then(es, k, e);
    SaneShape(k);
    e := Event(0, 0, Kill(1));
    KillScene(k, e);
    es, k := Then(es, k, e);
    SaneShape(k);
    e := Event(0, 0, BarrierWait(0));
    BarrierFullScene(k, 1, [], {1}, e);
    es, k := Then(es, k, e);
    SaneShape(k);
  }
}
