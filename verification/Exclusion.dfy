/** Mutual exclusion: who is between acquiring and releasing a lock, and which steps break it. */
module Exclusion {
  import opened Rings
  import opened Sched
  import opened Syscalls
  import opened Runs

  /** The lock is LOCKED exactly while its taker is between acquiring and releasing it, and nobody else is. */
  ghost predicate TightAt(k: K, l: int)
    requires Shape(k) && IsObj(l)
  {
    k.y.held[l] == if k.x.locks[l].locked then {k.y.taker[l]} else {}
  }

  ghost predicate Tight(k: K) {
    Shape(k) && forall l :: IsObj(l) ==> TightAt(k, l)
  }

  /** While that is so, at most one process holds the lock; it is alive, and it is the lock's owner. */
  lemma MutualExclusion(k: K, l: int)
    requires Sane(k) && Tight(k) && IsObj(l)
    ensures k.x.locks[l].locked <==> k.y.held[l] != {}
    ensures forall c, d :: c in k.y.held[l] && d in k.y.held[l] ==> c == d
    ensures forall c :: c in k.y.held[l] ==> IsPcb(c) && k.t.status[c] != EXITED && k.x.pid[c] == k.x.locks[l].owner
  {
    assert OwnedAt(k, l) && TightAt(k, l);
  }

  /** Somebody other than c took lock l and has it. */
  predicate TakenByAnother(k: K, l: int, c: int)
    requires Shape(k)
  {
    IsObj(l) && k.x.locks[l].locked && k.y.taker[l] != c
  }

  /** The steps that free a lock under a process that goes on believing it holds it: the exit of a thread while a
      sibling is the taker; killing one's own pid while a sibling behind the caller in the table is; and releasing, or
      waiting on a condition with, a lock another process took. */
  ghost predicate Robs(k: K, e: Event)
    requires Shape(k) && Enabled(k, e)
  {
    match e.op
    case Exit => exists l :: TakenByAnother(k, l, k.t.cur[e.hart]) && k.x.locks[l].owner == k.x.pid[k.t.cur[e.hart]]
    case Kill(p) =>
      && k.x.pid[k.t.cur[e.hart]] == p
      && exists l :: TakenByAnother(k, l, k.t.cur[e.hart]) && k.x.locks[l].owner == p && k.y.taker[l] > k.t.cur[e.hart]
    case Release(l) => TakenByAnother(k, l, k.t.cur[e.hart])
    case CondWait(_, l) => TakenByAnother(k, l, k.t.cur[e.hart])
    case _ => false
  }

  // ---------------------------------------------------------------- what the steps do to locks and holders

  /** Locks and holders are as they were. */
  ghost predicate SameLocks(k: K, k': K) {
    && Shape(k) && Shape(k') && k'.y.held == k.y.held && k'.y.taker == k.y.taker
    && forall l :: IsObj(l) ==> k'.x.locks[l].locked == k.x.locks[l].locked
  }

  lemma SameTight(k: K, k': K)
    requires SameLocks(k, k')
    ensures Tight(k) <==> Tight(k')
  {
    hide Shape;
    forall l | IsObj(l) ensures Shape(k) && Shape(k') && (TightAt(k, l) <==> TightAt(k', l)) {
    }
  }

  /** The locks of pid p are free, the others as they were; the processes in `dies` hold nothing, the others what they
      held. */
  ghost predicate Cut(k: K, k': K, p: int, dies: set<int>) {
    && Shape(k) && Shape(k') && k'.y.taker == k.y.taker
    && (forall l :: IsObj(l) ==> (k'.x.locks[l].locked <==> k.x.locks[l].locked && k.x.locks[l].owner != p))
    && (forall l :: IsObj(l) && k.x.locks[l].owner != p ==> k'.x.locks[l] == k.x.locks[l])
    && (forall l :: IsObj(l) ==> k'.y.held[l] == k.y.held[l] - dies)
  }

  /** Cutting keeps exclusion exactly when every taker of a freed lock dies. */
  lemma CutTight(k: K, k': K, p: int, dies: set<int>)
    requires Sane(k) && Tight(k) && Cut(k, k', p, dies)
    requires forall c :: c in dies ==> IsPcb(c) && k.x.pid[c] == p
    ensures Tight(k')
       <==> forall l :: IsObj(l) && k.x.locks[l].locked && k.x.locks[l].owner == p ==> k.y.taker[l] in dies
  {
    hide Waiting, Counted, Streams, Inside;
    forall l | IsObj(l)
      ensures TightAt(k', l) <==> (k.x.locks[l].locked && k.x.locks[l].owner == p ==> k.y.taker[l] in dies)
    {
      assert TightAt(k, l) && OwnedAt(k, l);
      Minus(k.y.taker[l], dies);
    }
  }

  lemma Minus(t: int, dies: set<int>)
    ensures {t} - dies == (if t in dies then {} else {t}) && {} - dies == {}
  {
  }

  lemma UnburdenedCut(k: K, hart: int, c: int)
    requires Good(k) && Inside(k.t, hart) && IsPcb(c)
    ensures Cut(k, Dead(Unburdened(k, c), c), k.x.pid[c], {c}) && Cut(k, Killed(k, c), k.x.pid[c], {c})
  {
    hide Waiting, Owned, Counted, Streams, Inside, Calm;
    UnburdenedGood(k, hart, c);
    var r := Unburdened(k, c);
    forall l | IsObj(l) ensures r.x.locks[l].locked <==> k.x.locks[l].locked && k.x.locks[l].owner != k.x.pid[c] {
    }
  }

  lemma ExitCut(k: K, e: Event)
    requires Good(k) && Inside(k.t, e.hart) && Busy(k.t, e.hart)
    ensures Cut(k, ExitStep(k, e), k.x.pid[k.t.cur[e.hart]], {k.t.cur[e.hart]})
  {
    hide Waiting, Owned, Counted, Streams, Dispatch, Cut;
    var c := k.t.cur[e.hart];
    UnburdenedCut(k, e.hart, c);
    ExitSane(k, e);
    CutSwitch(k, Dead(Unburdened(k, c), c), k.x.pid[c], {c}, e);
  }

  lemma CutSwitch(k: K, u: K, p: int, dies: set<int>, e: Event)
    requires Cut(k, u, p, dies) && IsHart(e.hart) && Shape(Switched(u, e.hart, e.now))
    ensures Cut(k, Switched(u, e.hart, e.now), p, dies)
  {
    hide Dispatch;
  }

  /** Whom `do_kill` of pid p kills: all of it, or those up to the caller in the table if the caller is one of them. */
  function Victims(k: K, hart: int, p: int): set<int>
    requires Shape(k) && Busy(k.t, hart)
  {
    set c: int | 0 <= c < N && k.t.status[c] != EXITED && k.x.pid[c] == p
      && (k.x.pid[k.t.cur[hart]] == p ==> c <= k.t.cur[hart])
  }

  /** Nobody of pid p is left: no lock is its. */
  lemma NoneLeft(k: K, p: int, l: int)
    requires Good(k) && IsObj(l) && forall c :: IsPcb(c) ==> k.t.status[c] == EXITED || k.x.pid[c] != p
    ensures k.x.locks[l].locked ==> k.x.locks[l].owner != p
  {
    assert OwnedAt(k, l);
  }

  lemma CutNone(k: K, hart: int, p: int)
    requires Good(k) && Busy(k.t, hart) && forall c :: IsPcb(c) ==> k.t.status[c] == EXITED || k.x.pid[c] != p
    ensures Cut(k, k, p, Victims(k, hart, p))
  {
    hide Waiting, Owned, Counted, Streams;
    forall l | IsObj(l) ensures k.x.locks[l].locked ==> k.x.locks[l].owner != p {
      NoneLeft(k, p, l);
    }
    assert Victims(k, hart, p) == {};
  }

  lemma CutTrans(k: K, u: K, v: K, p: int, d: set<int>, d': set<int>)
    requires Cut(k, u, p, d) && Cut(u, v, p, d')
    requires forall l :: IsObj(l) && k.x.locks[l].owner == p && k.x.locks[l].locked ==> !u.x.locks[l].locked
    ensures Cut(k, v, p, d + d')
  {
  }

  lemma {:induction false} KillCut(k: K, e: Event, p: int, i: nat)
    requires Sane(k) && Busy(k.t, e.hart) && i <= N
    requires forall c :: IsPcb(c) && k.t.status[c] == RUNNING && k.x.pid[c] == p ==> c == k.t.cur[e.hart]
    requires forall j :: 0 <= j < i ==> k.t.status[j] == EXITED || k.x.pid[j] != p
    ensures Cut(k, KillStep(k, e, p, i), p, Victims(k, e.hart, p))
    decreases N - i
  {
    hide Waiting, Owned, Counted, Streams, Queued, Killed, ExitStep, Cut, Unburdened, Inside;
    if i == N {
      CutNone(k, e.hart, p);
    } else if k.t.status[i] == EXITED || k.x.pid[i] != p {
      KillCut(k, e, p, i + 1);
    } else if i == k.t.cur[e.hart] {
      Enter(k.t, e.hart);
      ExitCut(k, e);
      assert Victims(k, e.hart, p) == {i};
    } else {
      var u := Killed(k, i);
      KilledGood(k, IDLE, i);
      KilledOnly(k, i);
      UnburdenedCut(k, IDLE, i);
      KillCut(u, e, p, i + 1);
      CutFrees(k, u, p, {i});
      CutTrans(k, u, KillStep(u, e, p, i + 1), p, {i}, Victims(u, e.hart, p));
      VictimsAfter(k, u, e.hart, p, i);
    }
  }

  lemma CutFrees(k: K, u: K, p: int, dies: set<int>)
    requires Cut(k, u, p, dies)
    ensures forall l :: IsObj(l) && k.x.locks[l].owner == p && k.x.locks[l].locked ==> !u.x.locks[l].locked
  {
  }

  /** A kill ends that process and no other. */
  lemma KilledOnly(k: K, c: int)
    requires Sane(k) && IsPcb(c) && k.t.status[c] != RUNNING && k.t.status[c] != EXITED
    ensures Shape(Killed(k, c)) && Killed(k, c).x.pid == k.x.pid && Killed(k, c).t.cur == k.t.cur
    ensures forall d :: IsPcb(d) ==> (Killed(k, c).t.status[d] == EXITED <==> k.t.status[d] == EXITED || d == c)
  {
    hide Waiting, Owned, Counted, Streams, Queued, Grown;
    KilledGood(k, IDLE, c);
    UnburdenedGood(k, IDLE, c);
    CalmLives(k.t, Unburdened(k, c).t);
  }

  lemma VictimsAfter(k: K, u: K, hart: int, p: int, i: int)
    requires Shape(k) && Busy(k.t, hart) && Shape(u) && Busy(u.t, hart) && IsPcb(i) && i != k.t.cur[hart]
    requires u.x.pid == k.x.pid && u.t.cur == k.t.cur && k.t.status[i] != EXITED && k.x.pid[i] == p
    requires forall d :: IsPcb(d) ==> (u.t.status[d] == EXITED <==> k.t.status[d] == EXITED || d == i)
    requires forall j :: 0 <= j < i ==> k.t.status[j] == EXITED || k.x.pid[j] != p
    ensures Victims(k, hart, p) == {i} + Victims(u, hart, p)
  {
    if k.x.pid[k.t.cur[hart]] == p {
      assert k.t.cur[hart] > i;
    }
    forall c ensures c in Victims(k, hart, p) <==> c in {i} + Victims(u, hart, p) {
    }
  }

  // ---------------------------------------------------------------- exactly which steps break exclusion

  lemma ExitTight(k: K, e: Event)
    requires Sane(k) && Tight(k) && Enabled(k, e) && e.op == Exit
    ensures Tight(Apply(k, e)) <==> !Robs(k, e)
  {
    hide Waiting, Owned, Counted, Streams, Inside, Cut, ExitStep, Tight;
    var c := k.t.cur[e.hart];
    Enter(k.t, e.hart);
    ExitCut(k, e);
    CutTight(k, ExitStep(k, e), k.x.pid[c], {c});
  }

  lemma KillTight(k: K, e: Event, p: int)
    requires Sane(k) && Tight(k) && Enabled(k, e) && e.op == Kill(p)
    ensures Tight(Apply(k, e)) <==> !Robs(k, e)
  {
    hide Waiting, Counted, Streams, Inside, Cut, KillStep, Tight;
    KillCut(k, e, p, 0);
    var v := Victims(k, e.hart, p);
    CutTight(k, KillStep(k, e, p, 0), p, v);
    var c := k.t.cur[e.hart];
    forall l | IsObj(l) && k.x.locks[l].locked && k.x.locks[l].owner == p
      ensures k.y.taker[l] in v <==> !(k.x.pid[c] == p && k.y.taker[l] > c)
    {
      assert OwnedAt(k, l);
    }
  }

  lemma ReleaseTight(k: K, u: K, k': K, l: int, c: int)
    requires Tight(k) && IsObj(l) && Shape(u) && Shape(k') && SameLocks(k, u)
    requires k'.y == LetGo(Unlocked(u, l), l, c).y && k'.x == LetGo(Unlocked(u, l), l, c).x
    ensures Tight(k') <==> !TakenByAnother(k, l, c)
  {
    forall j | IsObj(j) ensures TightAt(k', j) <==> j != l || !TakenByAnother(k, l, c) {
      assert TightAt(k, j);
      Minus(k.y.taker[j], {c});
    }
  }

  lemma AcquireTight(k: K, e: Event, l: int)
    requires Sane(k) && Tight(k) && Busy(k.t, e.hart) && IsObj(l) && l < k.x.nlocks
    ensures Tight(AcquireStep(k, e, l))
  {
    hide Waiting, Owned, Counted, Streams, Inside, Dispatch;
    AcquireSane(k, e, l);
    var k' := AcquireStep(k, e, l);
    forall j | IsObj(j) ensures TightAt(k', j) {
      assert TightAt(k, j);
    }
  }

  /** The other steps leave locks and holders alone. */
  lemma QuietLocks(k: K, e: Event)
    requires Sane(k) && Enabled(k, e) && !e.op.Exit? && !e.op.Kill? && !e.op.Release? && !e.op.CondWait?
             && !e.op.Acquire?
    requires e.op == Resume ==> !k.x.cont[k.t.cur[e.hart]].Acquiring?
    ensures SameLocks(k, Apply(k, e))
  {
    hide Waiting, Owned, Counted, Streams, Inside, Dispatch, Wake, Spawned, FreePcb, First, Block;
    StepSane(k, e);
  }

  /** A step keeps exclusion exactly when it does not rob. */
  lemma ExclusionKeptExactly(k: K, e: Event)
    requires Sane(k) && Tight(k) && Enabled(k, e)
    ensures Tight(Apply(k, e)) <==> !Robs(k, e)
  {
    hide Waiting, Owned, Counted, Streams, Inside, Tight, SameLocks, Dispatch, AcquireStep;
    StepSane(k, e);
    match e.op
    case Exit => ExitTight(k, e);
    case Kill(p) => KillTight(k, e, p);
    case Release(l) =>
      SelfLocks(k);
      ReleaseTight(k, k, Apply(k, e), l, k.t.cur[e.hart]);
    case CondWait(i, l) => CondWaitTight(k, e, i, l);
    case Acquire(l) => AcquireTight(k, e, l);
    case Resume => ResumeTight(k, e);
    case _ =>
      QuietLocks(k, e);
      SameTight(k, Apply(k, e));
  }

  lemma ResumeTight(k: K, e: Event)
    requires Sane(k) && Tight(k) && Enabled(k, e) && e.op == Resume
    ensures Tight(Apply(k, e))
  {
    hide Waiting, Owned, Counted, Streams, Inside, Tight, SameLocks, Dispatch, AcquireStep, SendStep, RecvStep;
    var co := k.x.cont[k.t.cur[e.hart]];
    if co.Acquiring? {
      AcquireTight(k, e, co.l);
    } else {
      QuietLocks(k, e);
      SameTight(k, Apply(k, e));
    }
  }

  lemma SelfLocks(k: K)
    requires Shape(k)
    ensures SameLocks(k, k)
  {
  }

  lemma CondWaitTight(k: K, e: Event, i: int, l: int)
    requires Sane(k) && Tight(k) && Enabled(k, e) && e.op == CondWait(i, l)
    ensures Tight(Apply(k, e)) <==> !TakenByAnother(k, l, k.t.cur[e.hart])
  {
    hide Waiting, Owned, Counted, Streams, Inside, Dispatch, Tight, WakeAll, Block;
    StepSane(k, e);
    Enter(k.t, e.hart);
    ParkedGood(k, e.hart, Cond(i), Acquiring(l));
    ReleaseTight(k, Parked(k, e.hart, Cond(i), Acquiring(l)), Apply(k, e), l, k.t.cur[e.hart]);
  }

  // ---------------------------------------------------------------- runs

  /** No step of the run robs. */
  ghost predicate Peaceful(k: K, es: seq<Event>)
    requires IsRun(k, es)
    decreases |es|
  {
    es == [] || (!Robs(k, es[0]) && Peaceful(Apply(k, es[0]), es[1..]))
  }

  /** Exclusion holds in every state of the run. */
  ghost predicate AlwaysTight(k: K, es: seq<Event>)
    requires IsRun(k, es)
    decreases |es|
  {
    Tight(k) && (es == [] || AlwaysTight(Apply(k, es[0]), es[1..]))
  }

  /** Exclusion holds throughout a run exactly when no step of it robs, between threads as well as between processes. */
  lemma {:induction false} RunExclusive(k: K, es: seq<Event>)
    requires Sane(k) && Tight(k) && IsRun(k, es)
    ensures AlwaysTight(k, es) <==> Peaceful(k, es)
    ensures Peaceful(k, es) ==> Sane(Final(k, es)) && Tight(Final(k, es))
    decreases |es|
  {
    hide Apply, Enabled, Good, Stable, Tight, Robs;
    if es != [] && Robs(k, es[0]) {
      StepSane(k, es[0]);
      ExclusionKeptExactly(k, es[0]);
    } else if es != [] {
      StepSane(k, es[0]);
      ExclusionKeptExactly(k, es[0]);
      RunExclusive(Apply(k, es[0]), es[1..]);
    }
  }

  lemma BootTight(masks: seq<set<int>>, wake: seq<int>, pid: seq<int>, tid: seq<int>, heads: set<Head>)
    requires |masks| == |wake| == |pid| == |tid| == N
    ensures Tight(Boots(masks, wake, pid, tid, heads))
  {
  }
}
