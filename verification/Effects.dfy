/** What each step does, told queue by queue and process by process. */
module Effects {
  import opened Rings
  import opened Sched
  import opened Syscalls
  import opened Runs
  import opened Exclusion

  // ---------------------------------------------------------------- one dispatch

  ghost predicate Precedes(s: seq<int>, x: int, y: int) {
    exists a, b :: 0 <= a < b < |s| && s[a] == x && s[b] == y
  }

  /** The members of r stand in s in the same order. */
  ghost predicate InOrder(r: seq<int>, s: seq<int>) {
    forall i, j :: 0 <= i < j < |r| ==> Precedes(s, r[i], r[j])
  }

  /** The sleepers `woke` are those whose time has come; the others stay where they are. */
  ghost predicate Roused(t: Tasks, now: int, woke: seq<int>, t': Tasks) {
    && Sized(t) && InOrder(woke, Q(t, Sleep)) && InOrder(Q(t', Sleep), Q(t, Sleep))
    && (forall c :: c in woke <==> c in Q(t, Sleep) && IsPcb(c) && t.wake[c] <= now)
    && (forall c :: c in Q(t', Sleep) <==> c in Q(t, Sleep) && c !in woke)
  }

  /** Those who may run next, in the order in which they are asked: the ready ones, the ones just woken, and last the
      process that runs now. */
  ghost function Line(t: Tasks, hart: int, woke: seq<int>): seq<int>
    requires Sized(t) && IsHart(hart)
  {
    Q(t, Ready) + woke + if Busy(t, hart) then [t.cur[hart]] else []
  }

  /** The first of the line whose mask has the hart runs, and leaves the line; if there is none the hart idles. */
  ghost predicate Chosen(t: Tasks, hart: int, line: seq<int>, t': Tasks)
    requires Sized(t) && Sized(t') && IsHart(hart)
  {
    if t'.cur[hart] == IDLE then
      Q(t', Ready) == line && forall d :: d in line && IsPcb(d) ==> hart !in t.mask[d]
    else
      exists i :: ChosenAt(t, hart, line, t', i)
  }

  ghost predicate ChosenAt(t: Tasks, hart: int, line: seq<int>, t': Tasks, i: int)
    requires Sized(t) && Sized(t') && IsHart(hart)
  {
    && 0 <= i < |line| && line[i] == t'.cur[hart] && IsPcb(line[i]) && hart in t.mask[line[i]]
    && (forall j :: 0 <= j < i && IsPcb(line[j]) ==> hart !in t.mask[line[j]])
    && Q(t', Ready) == line[..i] + line[i + 1..]
  }

  /** One call of `do_scheduler` by the hart turns t into t'. */
  ghost predicate Dispatched(t: Tasks, hart: int, now: int, woke: seq<int>, t': Tasks) {
    && Sized(t) && Sized(t') && IsHart(hart) && Roused(t, now, woke, t') && Chosen(t, hart, Line(t, hart, woke), t')
    && (forall h :: h != Ready && h != Sleep ==> Q(t', h) == Q(t, h))
    && (forall c :: IsPcb(c) ==>
          t'.status[c] == if c == t'.cur[hart] then RUNNING else if c in woke || (Busy(t, hart) && c == t.cur[hart])
                          then READY else t.status[c])
    && (forall c :: IsPcb(c) ==> t'.cpu[c] == if c == t'.cur[hart] then hart else t.cpu[c])
    && (forall g :: IsHart(g) && g != hart ==> t'.cur[g] == t.cur[g])
    && t'.wake == t.wake && t'.mask == t.mask
  }

  lemma {:induction false} DueInOrder(wake: seq<int>, s: seq<int>, now: int)
    ensures InOrder(Due(wake, s, now), s) && InOrder(Later(wake, s, now), s)
    ensures forall c :: c in Due(wake, s, now) ==> c in s
    ensures forall c :: c in Later(wake, s, now) ==> c in s
  {
    if s != [] {
      var d, l := Due(wake, s[1..], now), Later(wake, s[1..], now);
      DueInOrder(wake, s[1..], now);
      OrderTail(d, s);
      OrderTail(l, s);
    }
  }

  lemma OrderTail(r: seq<int>, s: seq<int>)
    requires s != [] && InOrder(r, s[1..]) && forall c :: c in r ==> c in s[1..]
    ensures InOrder(r, s) && InOrder([s[0]] + r, s)
  {
    forall x, y | Precedes(s[1..], x, y) ensures Precedes(s, x, y) {
      var a, b :| 0 <= a < b < |s[1..]| && s[1..][a] == x && s[1..][b] == y;
      assert s[a + 1] == x && s[b + 1] == y;
    }
    forall y | y in s[1..] ensures Precedes(s, s[0], y) {
      var b :| 0 <= b < |s[1..]| && s[1..][b] == y;
      assert s[0] == s[0] && s[b + 1] == y;
    }
  }

  /** Waking and choosing, on a state with the due ones already ready. */
  lemma NextChooses(t: Tasks, hart: int)
    requires Inside(t, hart) && IsHart(hart)
    ensures var t', line := Next(t, hart), Q(t, Ready) + if Busy(t, hart) then [t.cur[hart]] else [];
            && Sized(t') && Chosen(t, hart, line, t')
            && (forall h :: h != Ready ==> Q(t', h) == Q(t, h))
            && (forall c :: IsPcb(c) ==>
                  t'.status[c] == if c == t'.cur[hart] then RUNNING
                                  else if Busy(t, hart) && c == t.cur[hart] then READY else t.status[c])
            && (forall c :: IsPcb(c) ==> t'.cpu[c] == if c == t'.cur[hart] then hart else t.cpu[c])
            && (forall g :: IsHart(g) && g != hart ==> t'.cur[g] == t.cur[g])
            && t'.wake == t.wake && t'.mask == t.mask
  {
    hide Queued, Harts, Elsewhere, Statuses, Pick, Allowed, Run, Chosen, Yielded, Inv;
    InsideQueued(t, hart);
    YieldEffect(t, hart);
    var u, line := Yielded(t, hart), Q(t, Ready) + if Busy(t, hart) then [t.cur[hart]] else [];
    PickFirst(u, line, hart);
    var i := Pick(u, line, hart);
    if i < |line| {
      RunChooses(u, hart, i);
    } else {
      NobodyChosen(u, hart, Next(t, hart));
    }
    ChosenSame(t, u, hart, line, Next(t, hart));
  }

  /** A process that still runs goes to the tail of the ready queue. */
  lemma YieldEffect(t: Tasks, hart: int)
    requires Sized(t) && IsHart(hart)
    ensures var u := Yielded(t, hart);
            && Sized(u) && u.cur == t.cur && u.cpu == t.cpu && u.wake == t.wake && u.mask == t.mask
            && Q(u, Ready) == Q(t, Ready) + (if Busy(t, hart) then [t.cur[hart]] else [])
            && (forall h :: h != Ready ==> Q(u, h) == Q(t, h))
            && u.status == if Busy(t, hart) then t.status[t.cur[hart] := READY] else t.status
  {
  }

  lemma NobodyChosen(t: Tasks, hart: int, t': Tasks)
    requires Sized(t) && Sized(t') && IsHart(hart) && t'.cur[hart] == IDLE && Q(t', Ready) == Q(t, Ready)
    requires forall d :: d in Q(t, Ready) && IsPcb(d) ==> hart !in t.mask[d]
    ensures Chosen(t, hart, Q(t, Ready), t')
  {
  }

  lemma RunChooses(t: Tasks, hart: int, i: nat)
    requires Sized(t) && IsHart(hart) && i < |Q(t, Ready)| && IsPcb(Q(t, Ready)[i]) && hart in t.mask[Q(t, Ready)[i]]
    requires forall j :: 0 <= j < i && IsPcb(Q(t, Ready)[j]) ==> hart !in t.mask[Q(t, Ready)[j]]
    ensures var t', c := Run(t, hart, i), Q(t, Ready)[i];
            && Sized(t') && t'.cur == t.cur[hart := c] && t'.status == t.status[c := RUNNING]
            && t'.cpu == t.cpu[c := hart] && t'.wake == t.wake && t'.mask == t.mask
            && (forall h :: h != Ready ==> Q(t', h) == Q(t, h)) && Chosen(t, hart, Q(t, Ready), t')
  {
    assert ChosenAt(t, hart, Q(t, Ready), Run(t, hart, i), i);
  }

  lemma PickFirst(t: Tasks, line: seq<int>, hart: int)
    requires Sized(t)
    ensures var i := Pick(t, line, hart);
            && (i < |line| ==> IsPcb(line[i]) && hart in t.mask[line[i]])
            && (forall j :: 0 <= j < i && IsPcb(line[j]) ==> hart !in t.mask[line[j]])
            && (i == |line| ==> forall d :: d in line && IsPcb(d) ==> hart !in t.mask[d])
  {
    hide Pick;
  }

  lemma InsideQueued(t: Tasks, hart: int)
    requires Inside(t, hart)
    ensures Queued(t) && Sized(t) && Distinct(Q(t, Sleep))
  {
  }

  lemma DispatchEffect(t: Tasks, hart: int, now: int) returns (woke: seq<int>)
    requires Inside(t, hart) && IsHart(hart)
    ensures Dispatched(t, hart, now, woke, Dispatch(t, hart, now))
  {
    hide Queued, Statuses, Harts, Elsewhere, Next, Due, Later, InOrder, Distinct, Chosen, Pick, Yielded;
    InsideQueued(t, hart);
    var s := Q(t, Sleep);
    woke := Due(t.wake, s, now);
    DueSplits(t.wake, s, now);
    DueInOrder(t.wake, s, now);
    DueInv(t, hart, now);
    var u := WakeDue(t, now);
    MembersAt(t, Sleep, woke);
    NextChooses(u, hart);
    StillBusy(t, hart, woke, u);
    ChosenSame(t, u, hart, Line(t, hart, woke), Dispatch(t, hart, now));
  }

  lemma StillBusy(t: Tasks, hart: int, woke: seq<int>, u: Tasks)
    requires Inside(t, hart) && IsHart(hart) && Sized(u) && u.cur == t.cur
    requires forall c :: c in woke ==> IsPcb(c) && t.at[c] == On(Sleep)
    requires forall c :: IsPcb(c) ==> u.status[c] == if c in woke then READY else t.status[c]
    ensures Busy(u, hart) <==> Busy(t, hart)
    ensures Busy(t, hart) ==> t.cur[hart] !in woke
  {
    hide Queued;
  }

  lemma ChosenSame(t: Tasks, u: Tasks, hart: int, line: seq<int>, t': Tasks)
    requires Sized(t) && Sized(u) && Sized(t') && IsHart(hart) && u.mask == t.mask && Chosen(u, hart, line, t')
    ensures Chosen(t, hart, line, t')
  {
    if t'.cur[hart] != IDLE {
      var i :| ChosenAt(u, hart, line, t', i);
      assert ChosenAt(t, hart, line, t', i);
    }
  }

  /** A sleeper whose time has come is ready or running after any call of `do_scheduler`; any other sleeps on, in the
      old order. */
  lemma SleepersWake(t: Tasks, hart: int, now: int, c: int)
    requires Inside(t, hart) && IsHart(hart) && c in Q(t, Sleep)
    ensures IsPcb(c) && Sized(t) && Sized(Dispatch(t, hart, now))
    ensures var t' := Dispatch(t, hart, now);
            && InOrder(Q(t', Sleep), Q(t, Sleep))
            && if t.wake[c] <= now then c !in Q(t', Sleep) && (t'.status[c] == READY || t'.status[c] == RUNNING)
               else c in Q(t', Sleep) && t'.status[c] == BLOCKED
  {
    hide Dispatch, Queued, Distinct, InOrder, Chosen, Elsewhere, Harts, Statuses;
    InsideQueued(t, hart);
    OnlyPlace(t, c, Sleep);
    var woke := DispatchEffect(t, hart, now);
    DispatchInv(t, hart, now);
    var t' := Dispatch(t, hart, now);
    if t.wake[c] > now {
      InsideQueued(t', IDLE);
      OnlyPlace(t', c, Sleep);
      PlaceSays(t', c, Sleep);
    }
  }

  lemma PlaceSays(t: Tasks, c: int, h: Head)
    requires Stable(t) && IsPcb(c) && Sized(t) && t.at[c] == On(h) && h != Ready
    ensures t.status[c] == BLOCKED
  {
    hide Queued;
  }

  // ---------------------------------------------------------------- going to sleep and waking up

  ghost predicate SameHarts(t: Tasks, u: Tasks) {
    u.cur == t.cur && u.cpu == t.cpu && u.wake == t.wake && u.mask == t.mask
  }

  /** Process c joins the tail of queue h and is BLOCKED. */
  ghost predicate Sleeps(t: Tasks, c: int, h: Head, u: Tasks) {
    && Sized(t) && Sized(u) && IsPcb(c) && SameHarts(t, u) && u.status == t.status[c := BLOCKED]
    && Q(u, h) == Q(t, h) + [c] && forall g :: g != h ==> Q(u, g) == Q(t, g)
  }

  /** The first n on queue h go, in order, to the tail of the ready queue and are READY. */
  ghost predicate Wakes(t: Tasks, h: Head, n: int, u: Tasks) {
    && Sized(t) && Sized(u) && SameHarts(t, u) && 0 <= n <= |Q(t, h)|
    && Q(u, h) == Q(t, h)[n..] && Q(u, Ready) == Q(t, Ready) + Q(t, h)[..n]
    && (forall g :: g != h && g != Ready ==> Q(u, g) == Q(t, g))
    && forall c :: IsPcb(c) ==> u.status[c] == if c in Q(t, h)[..n] then READY else t.status[c]
  }

  lemma WakeEffect(t: Tasks, h: Head, n: nat)
    requires Sized(t) && h != Ready && n <= |Q(t, h)|
    ensures Wakes(t, h, n, Wake(t, h, Q(t, h)[n..], Q(t, h)[..n]))
  {
  }

  lemma WakeAllEffect(t: Tasks, h: Head)
    requires Sized(t) && h != Ready
    ensures Wakes(t, h, |Q(t, h)|, WakeAll(t, h))
  {
    hide Wake;
    WakeEffect(t, h, |Q(t, h)|);
    assert Q(t, h)[|Q(t, h)|..] == [] && Q(t, h)[..|Q(t, h)|] == Q(t, h);
  }

  lemma BlockEffect(t: Tasks, c: int, h: Head)
    requires Sized(t) && IsPcb(c)
    ensures Sleeps(t, c, h, Block(t, c, h))
  {
  }

  /** The caller sleeps on h, in the state u, and its hart calls the scheduler. */
  ghost predicate Parks(t: Tasks, e: Event, h: Head, u: Tasks, woke: seq<int>, t': Tasks) {
    Busy(t, e.hart) && Sleeps(t, t.cur[e.hart], h, u) && Dispatched(u, e.hart, e.now, woke, t')
  }

  lemma ParkEffect(k: K, e: Event, h: Head, co: Cont) returns (u: Tasks, woke: seq<int>)
    requires Sane(k) && Busy(k.t, e.hart) && h != Ready && !h.Bar? && Reason(k.t.status, k.x, h, co) && ContOk(k.x, co)
    ensures Shape(k) && Shape(Parked(k, e.hart, h, co))
    ensures Parks(k.t, e, h, u, woke, Switched(Parked(k, e.hart, h, co), e.hart, e.now).t)
  {
    hide Waiting, Owned, Counted, Streams, Inside, Reason, ContOk, Sleeps, Dispatched, Block, Dispatch;
    Enter(k.t, e.hart);
    ParkedGood(k, e.hart, h, co);
    u := Parked(k, e.hart, h, co).t;
    BlockEffect(k.t, k.t.cur[e.hart], h);
    woke := DispatchEffect(u, e.hart, e.now);
  }

  // ---------------------------------------------------------------- locks

  /** A turn of the acquire loop, the first one or a later one. */
  lemma AcquireEffect(k: K, e: Event, l: int) returns (u: Tasks, woke: seq<int>)
    requires Sane(k) && Enabled(k, e) && IsObj(l)
    requires e.op == Acquire(l) || (e.op == Resume && k.x.cont[k.t.cur[e.hart]] == Acquiring(l))
    ensures var k', c := Apply(k, e), k.t.cur[e.hart];
            if k.x.locks[l].locked then
              Parks(k.t, e, Lock(l), u, woke, k'.t) && k'.x == k.x.(cont := k.x.cont[c := Acquiring(l)]) && k'.y == k.y
            else
              && k'.t == k.t
              && k'.x == k.x.(cont := k.x.cont[c := Done],
                              locks := k.x.locks[l := Mutex(true, k.x.pid[c], k.x.locks[l].key)])
              && k'.y == k.y.(taker := k.y.taker[l := c], held := k.y.held[l := k.y.held[l] + {c}])
  {
    hide Waiting, Owned, Counted, Streams, Inside, Parks, Dispatch, Block;
    u, woke := k.t, [];
    if k.x.locks[l].locked {
      u, woke := ParkEffect(k, e, Lock(l), Acquiring(l));
    }
  }

  /** Releasing frees the lock and readies everybody who waits for it, whoever calls. */
  lemma ReleaseEffect(k: K, e: Event, l: int)
    requires Sane(k) && Enabled(k, e) && e.op == Release(l)
    ensures var k', c := Apply(k, e), k.t.cur[e.hart];
            && Wakes(k.t, Lock(l), |Q(k.t, Lock(l))|, k'.t)
            && k'.x == k.x.(locks := k.x.locks[l := Mutex(false, 0, k.x.locks[l].key)])
            && k'.y == k.y.(held := k.y.held[l := k.y.held[l] - {c}])
  {
    hide Waiting, Owned, Counted, Streams, Inside, Wakes, WakeAll;
    WakeAllEffect(k.t, Lock(l));
  }

  // ---------------------------------------------------------------- conditions

  ghost predicate CondWaited(k: K, e: Event, i: int, l: int, u: Tasks, v: Tasks, woke: seq<int>, k': K)
    requires Shape(k) && Busy(k.t, e.hart) && IsObj(l)
  {
    var c := k.t.cur[e.hart];
    && Sleeps(k.t, c, Cond(i), u) && Wakes(u, Lock(l), |Q(u, Lock(l))|, v)
    && Dispatched(v, e.hart, e.now, woke, k'.t)
    && k'.x == k.x.(cont := k.x.cont[c := Acquiring(l)], locks := k.x.locks[l := Mutex(false, 0, k.x.locks[l].key)])
    && k'.y == k.y.(held := k.y.held[l := k.y.held[l] - {c}])
  }

  /** The caller joins the condition's queue, then the mutex is freed and its waiters readied, then the hart
      switches. */
  lemma CondWaitEffect(k: K, e: Event, i: int, l: int) returns (u: Tasks, v: Tasks, woke: seq<int>)
    requires Sane(k) && Enabled(k, e) && e.op == CondWait(i, l)
    ensures Shape(k) && Busy(k.t, e.hart) && IsObj(l) && CondWaited(k, e, i, l, u, v, woke, Apply(k, e))
  {
    hide Waiting, Owned, Counted, Streams, Inside, Sleeps, Wakes, Dispatched, WakeAll, Block, Dispatch;
    Enter(k.t, e.hart);
    var p := Parked(k, e.hart, Cond(i), Acquiring(l));
    ParkedGood(k, e.hart, Cond(i), Acquiring(l));
    UnlockedGood(p, e.hart, l);
    u, v := p.t, Unlocked(p, l).t;
    BlockEffect(k.t, k.t.cur[e.hart], Cond(i));
    WakeAllEffect(u, Lock(l));
    woke := DispatchEffect(v, e.hart, e.now);
  }

  /** A signal readies the first waiter, and does nothing if there is none. */
  lemma SignalEffect(k: K, e: Event, i: int)
    requires Sane(k) && Enabled(k, e) && e.op == Signal(i)
    ensures var k', q := Apply(k, e), Q(k.t, Cond(i));
            && Shape(k')
            && if q == [] then k' == k
               else && k' == K(k'.t, k.x, k.y) && Wakes(k.t, Cond(i), 1, k'.t)
                    && Q(k'.t, Cond(i)) == q[1..] && Q(k'.t, Ready) == Q(k.t, Ready) + [q[0]]
                    && IsPcb(q[0]) && k'.t.status[q[0]] == READY
  {
    hide Waiting, Owned, Counted, Streams, Queued, Statuses, Harts, Elsewhere, Wake;
    var q := Q(k.t, Cond(i));
    if q != [] {
      WakeEffect(k.t, Cond(i), 1);
      assert q[..1] == [q[0]] && q[0] in q;
      OnlyPlace(k.t, q[0], Cond(i));
    }
  }

  /** A broadcast readies all of them, and destroying the condition does so too. */
  lemma BroadcastEffect(k: K, e: Event, i: int)
    requires Sane(k) && Enabled(k, e) && (e.op == Broadcast(i) || e.op == CondDestroy(i))
    ensures var k', q := Apply(k, e), Q(k.t, Cond(i));
            && Wakes(k.t, Cond(i), |q|, k'.t) && Q(k'.t, Cond(i)) == [] && Q(k'.t, Ready) == Q(k.t, Ready) + q
            && k'.x == (if e.op == Broadcast(i) then k.x else k.x.(conds := k.x.conds[i := false])) && k'.y == k.y
  {
    hide Waiting, Owned, Counted, Streams, Inside, WakeAll;
    WakeAllEffect(k.t, Cond(i));
    assert Q(k.t, Cond(i))[..|Q(k.t, Cond(i))|] == Q(k.t, Cond(i));
  }

  // ---------------------------------------------------------------- barriers

  /** The last arrival goes on and readies all sleepers; any other one is counted and sleeps. */
  lemma BarrierWaitEffect(k: K, e: Event, b: int) returns (u: Tasks, woke: seq<int>)
    requires Sane(k) && Enabled(k, e) && e.op == BarrierWait(b)
    ensures var k', r, y := Apply(k, e), k.x.bars[b], k.y;
            if r.counter + 1 >= r.goal then
              && Wakes(k.t, Bar(b), |Q(k.t, Bar(b))|, k'.t) && k'.x == k.x.(bars := k.x.bars[b := r.(counter := 0)])
              && k'.y == y.(arrived := y.arrived[b := y.arrived[b] + 1], rounds := y.rounds[b := y.rounds[b] + 1],
                            lost := y.lost[b := 0])
            else
              && Parks(k.t, e, Bar(b), u, woke, k'.t) && k'.y == y.(arrived := y.arrived[b := y.arrived[b] + 1])
              && k'.x == k.x.(bars := k.x.bars[b := r.(counter := r.counter + 1)])
  {
    hide Waiting, Owned, Counted, Streams, Inside, Wakes, Sleeps, Dispatched, WakeAll, Block, Dispatch;
    u, woke := k.t, [];
    if k.x.bars[b].counter + 1 >= k.x.bars[b].goal {
      WakeAllEffect(k.t, Bar(b));
    } else {
      Enter(k.t, e.hart);
      BarJoinGood(k, e.hart, b);
      u := BarJoin(k, e.hart, b).t;
      BlockEffect(k.t, k.t.cur[e.hart], Bar(b));
      woke := DispatchEffect(u, e.hart, e.now);
    }
  }

  /** Destroying a barrier readies everybody who sleeps at it. */
  lemma BarrierDestroyEffect(k: K, e: Event, b: int)
    requires Sane(k) && Enabled(k, e) && e.op == BarrierDestroy(b)
    ensures var k' := Apply(k, e);
            && Wakes(k.t, Bar(b), |Q(k.t, Bar(b))|, k'.t) && k'.y == k.y
            && k'.x == k.x.(bars := k.x.bars[b := k.x.bars[b].(active := false)])
  {
    hide Waiting, Owned, Counted, Streams, Inside, Wakes, WakeAll;
    WakeAllEffect(k.t, Bar(b));
  }

  // ---------------------------------------------------------------- mailboxes

  /** A turn of the send loop, the first one or a later one: with room exactly the message goes behind the buffer and
      every receiver is readied; without, the sender sleeps. */
  lemma SendEffect(k: K, e: Event, m: int, msg: seq<int>) returns (u: Tasks, woke: seq<int>)
    requires Sane(k) && Enabled(k, e) && IsObj(m)
    requires e.op == Send(m, msg) || (e.op == Resume && k.x.cont[k.t.cur[e.hart]] == Sending(m, msg))
    ensures var k', c, r := Apply(k, e), k.t.cur[e.hart], k.x.boxes[m];
            if |r.buf| + |msg| <= ROOM then
              && Wakes(k.t, Empty(m), |Q(k.t, Empty(m))|, k'.t)
              && k'.x == k.x.(cont := k.x.cont[c := Done], boxes := k.x.boxes[m := r.(buf := r.buf + msg)])
              && k'.y == k.y.(sent := k.y.sent[m := k.y.sent[m] + msg])
            else
              && Parks(k.t, e, Full(m), u, woke, k'.t) && k'.y == k.y
              && k'.x == k.x.(cont := k.x.cont[c := Sending(m, msg)])
  {
    hide Waiting, Owned, Counted, Streams, Inside, Wakes, Parks, WakeAll, Block, Dispatch;
    u, woke := k.t, [];
    if |k.x.boxes[m].buf| + |msg| <= ROOM {
      WakeAllEffect(k.t, Empty(m));
    } else {
      u, woke := ParkEffect(k, e, Full(m), Sending(m, msg));
    }
  }

  /** A turn of the receive loop: with enough data exactly the oldest bytes leave the buffer and every sender is
      readied; without, the receiver sleeps. */
  lemma RecvEffect(k: K, e: Event, m: int, len: int) returns (u: Tasks, woke: seq<int>)
    requires Sane(k) && Enabled(k, e) && IsObj(m) && len >= 0
    requires e.op == Recv(m, len) || (e.op == Resume && k.x.cont[k.t.cur[e.hart]] == Receiving(m, len))
    ensures var k', c, r := Apply(k, e), k.t.cur[e.hart], k.x.boxes[m];
            if len <= |r.buf| then
              && Wakes(k.t, Full(m), |Q(k.t, Full(m))|, k'.t)
              && k'.x == k.x.(cont := k.x.cont[c := Done], boxes := k.x.boxes[m := r.(buf := r.buf[len..])])
              && k'.y == k.y.(got := k.y.got[m := k.y.got[m] + r.buf[..len]])
            else
              && Parks(k.t, e, Empty(m), u, woke, k'.t) && k'.y == k.y
              && k'.x == k.x.(cont := k.x.cont[c := Receiving(m, len)])
  {
    hide Waiting, Owned, Counted, Streams, Inside, Wakes, Parks, WakeAll, Block, Dispatch;
    u, woke := k.t, [];
    if len <= |k.x.boxes[m].buf| {
      WakeAllEffect(k.t, Full(m));
    } else {
      u, woke := ParkEffect(k, e, Empty(m), Receiving(m, len));
    }
  }

  // ---------------------------------------------------------------- sleeping and waiting

  lemma TickEffect(k: K, e: Event) returns (woke: seq<int>)
    requires Sane(k) && Enabled(k, e) && e.op == Tick
    ensures Dispatched(k.t, e.hart, e.now, woke, Apply(k, e).t) && Apply(k, e).x == k.x && Apply(k, e).y == k.y
  {
    hide Waiting, Owned, Counted, Streams, Inside, Dispatched, Dispatch;
    Enter(k.t, e.hart);
    woke := DispatchEffect(k.t, e.hart, e.now);
  }

  /** The caller's wake time is set and it joins the sleepers, to stay there if that time is still to come. */
  lemma SleepEffect(k: K, e: Event, time: int) returns (u: Tasks, woke: seq<int>)
    requires Sane(k) && Enabled(k, e) && e.op == SleepUntil(time)
    ensures Shape(k) && Busy(k.t, e.hart) && Shape(Apply(k, e))
    ensures var k', c := Apply(k, e), k.t.cur[e.hart];
            && Parks(k.t.(wake := k.t.wake[c := time]), e, Sleep, u, woke, k'.t) && k'.t.wake == k.t.wake[c := time]
            && (time > e.now ==> c in Q(k'.t, Sleep))
            && k'.x == k.x.(cont := k.x.cont[c := Done]) && k'.y == k.y
  {
    hide Waiting, Owned, Counted, Streams, Queued, Statuses, Harts, Elsewhere, Chosen, Dispatch, Block, InOrder;
    var c := k.t.cur[e.hart];
    var k1 := k.(t := k.t.(wake := k.t.wake[c := time]));
    QueuedSame(k.t, k1.t);
    SameEases(k.t, k1.t);
    EasesGood(k, k1.t);
    WakeTimes(k.t, k1.t);
    u, woke := ParkEffect(k1, e, Sleep, Done);
    assert c in Q(u, Sleep);
  }

  /** Only the wake times differ. */
  lemma WakeTimes(t: Tasks, u: Tasks)
    requires Stable(t) && Queued(u) && Sized(u) && u == t.(wake := u.wake)
    ensures Stable(u)
  {
    hide Queued;
  }

  /** Entry d is the lowest one of a living process of pid p. */
  ghost predicate LowestOf(k: K, p: int, d: int)
    requires Shape(k)
  {
    && 0 <= d < N && k.t.status[d] != EXITED && k.x.pid[d] == p
    && forall j :: 0 <= j < d ==> k.t.status[j] == EXITED || k.x.pid[j] != p
  }

  ghost predicate SleepsOnEntry(k: K, e: Event, d: int, u: Tasks, woke: seq<int>, k': K)
    requires Shape(k) && Busy(k.t, e.hart)
  {
    && Parks(k.t, e, Waiters(d), u, woke, k'.t) && k'.y == k.y
    && k'.x == k.x.(cont := k.x.cont[k.t.cur[e.hart] := Done])
  }

  lemma PidFound(k: K, p: int)
    requires Shape(k)
    ensures var i := FindPid(k, p, 0);
            && i <= N && (i < N ==> k.t.status[i] != EXITED && LowestOf(k, p, i))
            && (forall d :: LowestOf(k, p, d) ==> d == i)
  {
  }

  lemma ThreadFound(k: K, p: int, tid: int)
    requires Shape(k)
    ensures var i := FindThread(k, p, tid, 0);
            && i <= N && (i < N ==> k.t.status[i] != EXITED && LowestThread(k, p, tid, i))
            && (forall d :: LowestThread(k, p, tid, d) ==> d == i)
  {
  }

  lemma WaitEffect(k: K, e: Event, i: nat) returns (u: Tasks, woke: seq<int>)
    requires Sane(k) && Shape(k) && Busy(k.t, e.hart) && i <= N && (i < N ==> k.t.status[i] != EXITED)
    ensures if i < N then SleepsOnEntry(k, e, i, u, woke, WaitStep(k, e, i)) else WaitStep(k, e, i) == k
  {
    hide Waiting, Owned, Counted, Streams, Inside, Parks, Dispatch, Block;
    u, woke := k.t, [];
    if i < N {
      u, woke := ParkEffect(k, e, Waiters(i), Done);
    }
  }

  /** The caller sleeps on the queue of the process it waits for; if there is none it goes on. */
  lemma WaitpidEffect(k: K, e: Event, p: int, d: int) returns (u: Tasks, woke: seq<int>)
    requires Sane(k) && Enabled(k, e) && e.op == Waitpid(p)
    ensures Shape(k) && Busy(k.t, e.hart)
    ensures LowestOf(k, p, d) ==> SleepsOnEntry(k, e, d, u, woke, Apply(k, e))
    ensures (forall j :: IsPcb(j) ==> !LowestOf(k, p, j)) ==> Apply(k, e) == k
  {
    hide Waiting, Owned, Counted, Streams, Inside, Parks, Dispatch, Block, Proper, FindPid, WaitStep;
    u, woke := k.t, [];
    PidFound(k, p);
    var i := FindPid(k, p, 0);
    u, woke := WaitEffect(k, e, i);
  }

  /** Entry d is the lowest one of a living thread of pid p with that thread number. */
  ghost predicate LowestThread(k: K, p: int, tid: int, d: int)
    requires Shape(k)
  {
    && 0 <= d < N && k.t.status[d] != EXITED && k.x.pid[d] == p && k.x.tid[d] == tid
    && forall j :: 0 <= j < d ==> k.t.status[j] == EXITED || k.x.pid[j] != p || k.x.tid[j] != tid
  }

  lemma JoinEffect(k: K, e: Event, tid: int, d: int) returns (u: Tasks, woke: seq<int>)
    requires Sane(k) && Enabled(k, e) && e.op == Join(tid)
    ensures Shape(k) && Busy(k.t, e.hart)
    ensures LowestThread(k, k.x.pid[k.t.cur[e.hart]], tid, d) ==> SleepsOnEntry(k, e, d, u, woke, Apply(k, e))
    ensures (forall j :: IsPcb(j) ==> !LowestThread(k, k.x.pid[k.t.cur[e.hart]], tid, j)) ==> Apply(k, e) == k
  {
    hide Waiting, Owned, Counted, Streams, Inside, Parks, Dispatch, Block, Proper, FindThread, WaitStep;
    u, woke := k.t, [];
    var p := k.x.pid[k.t.cur[e.hart]];
    ThreadFound(k, p, tid);
    var i := FindThread(k, p, tid, 0);
    u, woke := WaitEffect(k, e, i);
  }

  // ---------------------------------------------------------------- starting processes

  /** Entry i, the lowest free one, becomes a ready process. */
  ghost predicate Starts(k: K, i: int, pid: int, tid: int, mask: set<int>, k': K)
    requires Shape(k)
  {
    && Shape(k') && 0 <= i < N && k.t.status[i] == EXITED && (forall j :: 0 <= j < i ==> k.t.status[j] != EXITED)
    && k'.t.status == k.t.status[i := READY] && k'.t.mask == k.t.mask[i := mask]
    && Q(k'.t, Ready) == Q(k.t, Ready) + [i] && Q(k'.t, Waiters(i)) == []
    && (forall h :: h != Ready && h != Waiters(i) ==> Q(k'.t, h) == Q(k.t, h))
    && k'.t.cur == k.t.cur && k'.t.cpu == k.t.cpu && k'.t.wake == k.t.wake && k'.y == k.y
    && k'.x == k.x.(pid := k.x.pid[i := pid], tid := k.x.tid[i := tid], cont := k.x.cont[i := Done],
                    lastPid := k'.x.lastPid)
  }

  lemma StartedStarts(k: K, last: int, i: int, pid: int, tid: int, mask: set<int>)
    requires Shape(k) && IsPcb(i) && k.t.status[i] == EXITED && forall j :: 0 <= j < i ==> k.t.status[j] != EXITED
    ensures FreePcb(k) == i
    ensures var k' := Started(k.(x := k.x.(lastPid := last)), i, pid, tid, mask);
            Starts(k, i, pid, tid, mask, k') && k'.x.lastPid == last
  {
  }

  /** A new process gets the next pid and its parent's mask, a new thread its parent's pid and mask; with no free entry
      nothing happens. */
  lemma StartEffect(k: K, e: Event, i: int)
    requires Sane(k) && Enabled(k, e) && Shape(k) && (e.op.Boot? || e.op == Exec || e.op.ThreadCreate?)
    requires e.op.Boot? || Busy(k.t, e.hart)
    ensures (forall j :: IsPcb(j) ==> k.t.status[j] != EXITED) ==> Apply(k, e) == k
    ensures IsPcb(i) && k.t.status[i] == EXITED && (forall j :: 0 <= j < i ==> k.t.status[j] != EXITED) ==>
              var k', c := Apply(k, e), k.t.cur[e.hart];
              match e.op
              case Boot(mask) => Starts(k, i, k.x.lastPid + 1, 0, mask, k') && k'.x.lastPid == k.x.lastPid + 1
              case ThreadCreate(tid) => Starts(k, i, k.x.pid[c], tid, k.t.mask[c], k') && k'.x.lastPid == k.x.lastPid
              case _ => Starts(k, i, k.x.lastPid + 1, 0, k.t.mask[c], k') && k'.x.lastPid == k.x.lastPid + 1
  {
    hide Sane, First, Proper, Starts, Started;
    var c := k.t.cur[e.hart];
    if IsPcb(i) && k.t.status[i] == EXITED && forall j :: 0 <= j < i ==> k.t.status[j] != EXITED {
      match e.op
      case Boot(mask) => StartedStarts(k, k.x.lastPid + 1, i, k.x.lastPid + 1, 0, mask);
      case ThreadCreate(tid) => StartedStarts(k, k.x.lastPid, i, k.x.pid[c], tid, k.t.mask[c]);
      case Exec => StartedStarts(k, k.x.lastPid + 1, i, k.x.lastPid + 1, 0, k.t.mask[c]);
    }
  }

  // ---------------------------------------------------------------- masks and new objects

  lemma TasksetEffect(k: K, e: Event, p: int, mask: set<int>, d: int)
    requires Sane(k) && Enabled(k, e) && Shape(k) && e.op == Taskset(p, mask)
    ensures LowestOf(k, p, d) ==> Apply(k, e) == k.(t := k.t.(mask := k.t.mask[d := mask]))
    ensures (forall j :: IsPcb(j) ==> !LowestOf(k, p, j)) ==> Apply(k, e) == k
  {
    hide Sane, Enabled;
    if FindPid(k, p, 0) < N {
      assert LowestOf(k, p, FindPid(k, p, 0));
    }
  }

  /** A lock with a known key is found again; otherwise the next one gets the key. */
  lemma LockInitEffect(k: K, e: Event, key: int)
    requires Sane(k) && Enabled(k, e) && Shape(k) && e.op == LockInit(key)
    ensures var n, known := k.x.nlocks, exists l :: 0 <= l < k.x.nlocks && k.x.locks[l].key == key;
            Apply(k, e) == if known || n == OBJECTS then k
                           else k.(x := k.x.(nlocks := n + 1, locks := k.x.locks[n := k.x.locks[n].(key := key)]))
  {
    hide Sane, First;
    var n := k.x.nlocks;
    if n < OBJECTS {
      var i := First(k.x.locks[..n], (m: Mutex) => m.key == key);
      if i < n {
        assert k.x.locks[i].key == key;
      } else {
        assert forall l :: 0 <= l < n ==> k.x.locks[..n][l].key != key;
      }
    }
  }

  /** The lowest unused barrier is set up, with its queue empty. */
  lemma BarrierInitEffect(k: K, e: Event, goal: int, b: int)
    requires Sane(k) && Enabled(k, e) && Shape(k) && e.op == BarrierInit(goal)
    ensures (forall j :: IsObj(j) ==> k.x.bars[j].active) ==> Apply(k, e) == k
    ensures IsObj(b) && !k.x.bars[b].active && (forall j :: 0 <= j < b ==> k.x.bars[j].active) ==>
              var k' := Apply(k, e);
              && k'.x == k.x.(bars := k.x.bars[b := Barrier(true, goal, 0)]) && SameHarts(k.t, k'.t)
              && k'.t.status == k.t.status && forall h :: Q(k'.t, h) == Q(k.t, h)
  {
    hide Sane, First;
  }

  lemma CondInitEffect(k: K, e: Event, i: int)
    requires Sane(k) && Enabled(k, e) && Shape(k) && e.op == CondInit
    ensures (forall j :: IsObj(j) ==> k.x.conds[j]) ==> Apply(k, e) == k
    ensures IsObj(i) && !k.x.conds[i] && (forall j :: 0 <= j < i ==> k.x.conds[j]) ==>
              var k' := Apply(k, e);
              && k'.x == k.x.(conds := k.x.conds[i := true]) && k'.y == k.y && SameHarts(k.t, k'.t)
              && k'.t.status == k.t.status && forall h :: Q(k'.t, h) == Q(k.t, h)
  {
    hide Sane, First;
  }

  /** An open mailbox of that name gains a user; otherwise the lowest unused one is opened, empty. */
  lemma OpenEffect(k: K, e: Event, name: string, m: int)
    requires Sane(k) && Enabled(k, e) && Shape(k) && e.op == Open(name) && IsObj(m)
    ensures var k', r := Apply(k, e), k.x.boxes[m];
            && (r.active && r.name == name && (forall j :: 0 <= j < m ==> !Named(k, name, j)) ==>
                  k' == k.(x := k.x.(boxes := k.x.boxes[m := r.(cite := r.cite + 1)])))
            && (Opens(k, name, m) ==>
                  && k'.x == k.x.(boxes := k.x.boxes[m := Box(true, name, 1, [])])
                  && k'.y == k.y.(sent := k.y.sent[m := []], got := k.y.got[m := []])
                  && SameHarts(k.t, k'.t) && k'.t.status == k.t.status && forall h :: Q(k'.t, h) == Q(k.t, h))
            && ((forall j :: IsObj(j) ==> k.x.boxes[j].active && !Named(k, name, j)) ==> k' == k)
  {
    hide Sane, First;
    var i, f := First(k.x.boxes, (r: Box) => r.active && r.name == name), First(k.x.boxes, (r: Box) => !r.active);
    assert i < OBJECTS ==> Named(k, name, i);
  }

  ghost predicate Named(k: K, name: string, m: int)
    requires Shape(k)
  {
    IsObj(m) && k.x.boxes[m].active && k.x.boxes[m].name == name
  }

  /** No mailbox has the name, and m is the lowest unused one. */
  ghost predicate Opens(k: K, name: string, m: int)
    requires Shape(k)
  {
    && IsObj(m) && !k.x.boxes[m].active && (forall j :: 0 <= j < m ==> k.x.boxes[j].active)
    && forall j :: IsObj(j) ==> !Named(k, name, j)
  }

  /** Closing takes a user away, and the last one makes the mailbox unused. */
  lemma CloseEffect(k: K, e: Event, m: int)
    requires Sane(k) && Enabled(k, e) && Shape(k) && e.op == Close(m) && IsObj(m)
    ensures var k', r := Apply(k, e), k.x.boxes[m];
            && k' == k.(x := k.x.(boxes := k'.x.boxes)) && |k'.x.boxes| == OBJECTS
            && (forall j :: IsObj(j) && j != m ==> k'.x.boxes[j] == k.x.boxes[j])
            && var r' := k'.x.boxes[m];
               && r'.cite == r.cite - 1 && r'.buf == r.buf && r'.name == r.name
               && (r'.active <==> r.active && r.cite > 1)
  {
    hide Sane, Enabled;
  }

  // ---------------------------------------------------------------- mailboxes are nobody else's business

  /** The step is a turn of sending to or receiving from m, or opens it. */
  ghost predicate Touches(k: K, e: Event, m: int)
    requires Shape(k) && Enabled(k, e)
  {
    match e.op
    case Send(j, _) => j == m
    case Recv(j, _) => j == m
    case Open(name) => Opens(k, name, m)
    case Resume => var co := k.x.cont[k.t.cur[e.hart]]; (co.Sending? || co.Receiving?) && co.m == m
    case _ => false
  }

  ghost predicate SameBox(k: K, k': K, m: int) {
    && Shape(k) && Shape(k') && IsObj(m)
    && k'.x.boxes[m].buf == k.x.boxes[m].buf && k'.y.sent[m] == k.y.sent[m] && k'.y.got[m] == k.y.got[m]
  }

  ghost predicate SameBoxes(k: K, k': K) {
    Shape(k) && Shape(k') && k'.x.boxes == k.x.boxes && k'.y.sent == k.y.sent && k'.y.got == k.y.got
  }

  lemma ExitBoxes(k: K, e: Event)
    requires Good(k) && Inside(k.t, e.hart) && Busy(k.t, e.hart)
    ensures SameBoxes(k, ExitStep(k, e))
  {
    hide Waiting, Owned, Counted, Streams, Inside, Dispatch;
    UnburdenedGood(k, e.hart, k.t.cur[e.hart]);
    ExitSane(k, e);
  }

  lemma {:induction false} KillBoxes(k: K, e: Event, p: int, i: nat)
    requires Sane(k) && Busy(k.t, e.hart)
    requires forall c :: IsPcb(c) && k.t.status[c] == RUNNING && k.x.pid[c] == p ==> c == k.t.cur[e.hart]
    ensures SameBoxes(k, KillStep(k, e, p, i))
    decreases N - i
  {
    hide Waiting, Owned, Counted, Streams, Inside, Unburdened, ExitStep;
    if i < N {
      if k.t.status[i] == EXITED || k.x.pid[i] != p {
        KillBoxes(k, e, p, i + 1);
      } else if i == k.t.cur[e.hart] {
        Enter(k.t, e.hart);
        ExitBoxes(k, e);
      } else {
        var u := Killed(k, i);
        UnburdenedGood(k, IDLE, i);
        KilledGood(k, IDLE, i);
        KillBoxes(u, e, p, i + 1);
      }
    }
  }

  lemma TaskBoxes(k: K, e: Event)
    requires Sane(k) && Enabled(k, e) && TaskOp(e.op)
    ensures SameBoxes(k, Apply(k, e))
  {
    hide Waiting, Owned, Counted, Streams, Inside, ExitStep, KillStep, Dispatch, FreePcb, FindPid, FindThread, Spawned;
    StepSane(k, e);
    if e.op == Exit {
      Enter(k.t, e.hart);
      ExitBoxes(k, e);
    } else if e.op.Kill? {
      KillBoxes(k, e, e.op.pid, 0);
    }
  }

  /** Every other step leaves the mailbox's bytes alone. */
  lemma BoxFrame(k: K, e: Event, m: int)
    requires Sane(k) && Enabled(k, e) && IsObj(m) && !Touches(k, e, m)
    ensures SameBox(k, Apply(k, e), m)
  {
    hide Waiting, Owned, Counted, Streams, Inside, Dispatch, First, WakeAll, Wake, Opens;
    StepSane(k, e);
    if TaskOp(e.op) {
      TaskBoxes(k, e);
    } else if e.op.Open? {
      OpenBoxes(k, e, e.op.name, m);
    }
  }

  lemma OpenBoxes(k: K, e: Event, name: string, m: int)
    requires Shape(k) && Enabled(k, e) && IsObj(m) && e.op == Open(name) && !Opens(k, name, m)
    ensures Shape(Apply(k, e)) ==> SameBox(k, Apply(k, e), m)
  {
    hide First, Proper;
    var i, f := First(k.x.boxes, (r: Box) => r.active && r.name == name), First(k.x.boxes, (r: Box) => !r.active);
    if i == OBJECTS && f == m {
      forall j | IsObj(j) ensures !Named(k, name, j) {
      }
      assert false;
    }
  }

  // ---------------------------------------------------------------- dying

  ghost predicate OwnedBy(k: K, p: int, l: int) {
    Shape(k) && IsObj(l) && k.x.locks[l].locked && k.x.locks[l].owner == p
  }

  /** The locks of p from number i on are free, and those who waited for them, r, are behind the ready queue. */
  ghost predicate FreesLocks(k: K, p: int, i: int, r: seq<int>, u: K) {
    && Shape(k) && Shape(u) && SameHarts(k.t, u.t) && u == K(u.t, k.x.(locks := u.x.locks), k.y)
    && Q(u.t, Ready) == Q(k.t, Ready) + r
    && (forall d :: d in r <==> exists l :: OwnedBy(k, p, l) && i <= l && d in Q(k.t, Lock(l)))
    && (forall l :: IsObj(l) ==> if OwnedBy(k, p, l) && i <= l then u.x.locks[l] == Mutex(false, 0, k.x.locks[l].key)
                                 else u.x.locks[l] == k.x.locks[l])
    && (forall h :: h != Ready ==> Q(u.t, h) == if h.Lock? && OwnedBy(k, p, h.i) && i <= h.i then [] else Q(k.t, h))
    && forall d :: IsPcb(d) ==> u.t.status[d] == if d in r then READY else k.t.status[d]
  }

  lemma {:induction false} ReleasedFrees(k: K, p: int, i: nat) returns (r: seq<int>)
    requires Shape(k) && forall l :: IsObj(l) && k.x.locks[l].locked ==> l < k.x.nlocks
    ensures FreesLocks(k, p, i, r, Released(k, p, i))
    decreases OBJECTS - i
  {
    hide WakeAll;
    r := [];
    if i >= k.x.nlocks || i >= OBJECTS {
      assert Q(k.t, Ready) == Q(k.t, Ready) + [];
    } else if k.x.locks[i].locked && k.x.locks[i].owner == p {
      var v := Unlocked(k, i);
      WakeAllEffect(k.t, Lock(i));
      var r1 := ReleasedFrees(v, p, i + 1);
      r := Q(k.t, Lock(i)) + r1;
      FreesOne(k, p, i, r1, v, Released(v, p, i + 1));
    } else {
      r := ReleasedFrees(k, p, i + 1);
      FreesNone(k, p, i, r, Released(k, p, i + 1));
    }
  }

  lemma FreesNone(k: K, p: int, i: nat, r: seq<int>, u: K)
    requires FreesLocks(k, p, i + 1, r, u) && !OwnedBy(k, p, i)
    ensures FreesLocks(k, p, i, r, u)
  {
  }

  lemma FreesOne(k: K, p: int, i: nat, r: seq<int>, v: K, u: K)
    requires OwnedBy(k, p, i) && Shape(v) && Wakes(k.t, Lock(i), |Q(k.t, Lock(i))|, v.t)
    requires FreesLocks(v, p, i + 1, r, u)
    requires v == K(v.t, k.x.(locks := k.x.locks[i := Mutex(false, 0, k.x.locks[i].key)]), k.y)
    ensures FreesLocks(k, p, i, Q(k.t, Lock(i)) + r, u)
  {
    var w := Q(k.t, Lock(i));
    assert w[..|w|] == w && w[|w|..] == [];
    OwnedLater(k, p, i, v);
    FreesWhom(k, p, i, r, v, u);
  }

  lemma OwnedLater(k: K, p: int, i: nat, v: K)
    requires OwnedBy(k, p, i) && Shape(v)
    requires v == K(v.t, k.x.(locks := k.x.locks[i := Mutex(false, 0, k.x.locks[i].key)]), k.y)
    ensures forall l :: i < l ==> (OwnedBy(v, p, l) <==> OwnedBy(k, p, l))
    ensures IsObj(i)
  {
  }

  /** Those readied are the waiters of lock i and of the later ones. */
  lemma FreesWhom(k: K, p: int, i: nat, r: seq<int>, v: K, u: K)
    requires OwnedBy(k, p, i) && Wakes(k.t, Lock(i), |Q(k.t, Lock(i))|, v.t) && FreesLocks(v, p, i + 1, r, u)
    requires forall l :: i < l ==> (OwnedBy(v, p, l) <==> OwnedBy(k, p, l))
    ensures forall d ::
              d in Q(k.t, Lock(i)) + r <==> exists l :: OwnedBy(k, p, l) && i <= l && d in Q(k.t, Lock(l))
  {
    hide OwnedBy;
    forall d ensures d in Q(k.t, Lock(i)) + r <==> exists l :: OwnedBy(k, p, l) && i <= l && d in Q(k.t, Lock(l)) {
      if d in r {
        var l :| OwnedBy(v, p, l) && i + 1 <= l && d in Q(v.t, Lock(l));
        assert OwnedBy(k, p, l) && d in Q(k.t, Lock(l));
      }
    }
  }

  /** Those who wait for c are readied, then the locks of its pid are freed and their waiters readied. */
  ghost predicate Unburdens(k: K, c: int, v: K, r: seq<int>, u: K) {
    && Shape(k) && IsPcb(c) && v == K(v.t, k.x, k.y) && Wakes(k.t, Waiters(c), |Q(k.t, Waiters(c))|, v.t)
    && FreesLocks(v, k.x.pid[c], 0, r, u)
  }

  lemma UnburdenEffect(k: K, c: int) returns (v: K, r: seq<int>)
    requires Good(k) && IsPcb(c)
    ensures Unburdens(k, c, v, r, Unburdened(k, c))
  {
    hide Waiting, Counted, Streams, WakeAll, FreesLocks, Released;
    v := Woken(k, Waiters(c));
    WakeAllEffect(k.t, Waiters(c));
    forall l | IsObj(l) && v.x.locks[l].locked ensures l < v.x.nlocks {
      assert OwnedAt(k, l);
    }
    r := ReleasedFrees(v, k.x.pid[c], 0);
  }

  /** The caller of exit is EXITED and holds nothing; waiters and locks are seen to first, then the hart switches. */
  lemma ExitEffect(k: K, e: Event) returns (v: K, r: seq<int>, u: K, woke: seq<int>)
    requires Sane(k) && Enabled(k, e) && e.op == Exit
    ensures Shape(k) && Busy(k.t, e.hart) && Unburdens(k, k.t.cur[e.hart], v, r, u)
    ensures var k', c := Apply(k, e), k.t.cur[e.hart];
            && Dispatched(u.t.(status := u.t.status[c := EXITED]), e.hart, e.now, woke, k'.t)
            && k'.x == u.x && Shape(k') && k'.y == k.y.(held := k'.y.held)
            && forall l :: IsObj(l) ==> k'.y.held[l] == k.y.held[l] - {c}
  {
    hide Waiting, Owned, Counted, Streams, Queued, Harts, Elsewhere, Unburdened, Dispatched, Dispatch, Calm, Free,
         Wakes, FreesLocks;
    var c := k.t.cur[e.hart];
    Enter(k.t, e.hart);
    v, r := UnburdenEffect(k, c);
    u := Unburdened(k, c);
    UnburdenedGood(k, e.hart, c);
    CallerStays(k, e.hart, u.t);
    DeadGood(u, e.hart, c);
    woke := DispatchEffect(Dead(u, c).t, e.hart, e.now);
    StepSane(k, e);
  }

  lemma CallerStays(k: K, hart: int, u: Tasks)
    requires Shape(k) && Busy(k.t, hart) && Inside(k.t, hart) && Inside(u, hart) && Calm(k.t, u)
    ensures Sized(u) && u.at[k.t.cur[hart]] == Off && u.cpu[k.t.cur[hart]] == hart
  {
    hide Queued, Grown;
  }

  /** Nobody has joined a wait queue, but for c. */
  ghost predicate NoneJoins(t: Tasks, t': Tasks, c: int) {
    forall h, d :: h != Ready && d in Q(t', h) ==> d in Q(t, h) || d == c
  }

  lemma NoneJoinsTrans(t: Tasks, u: Tasks, v: Tasks, c: int)
    requires NoneJoins(t, u, c) && NoneJoins(u, v, c)
    ensures NoneJoins(t, v, c)
  {
  }

  lemma WakesJoins(t: Tasks, h: Head, n: int, u: Tasks, c: int)
    requires Wakes(t, h, n, u)
    ensures NoneJoins(t, u, c)
  {
  }

  lemma DispatchedJoins(t: Tasks, hart: int, now: int, woke: seq<int>, t': Tasks, c: int)
    requires Dispatched(t, hart, now, woke, t')
    ensures NoneJoins(t, t', c)
  {
    hide Chosen, InOrder;
  }

  lemma SleepsJoins(t: Tasks, c: int, h: Head, u: Tasks)
    requires Sleeps(t, c, h, u)
    ensures NoneJoins(t, u, c)
  {
  }

  lemma CalmJoins(t: Tasks, u: Tasks, c: int)
    requires Calm(t, u)
    ensures NoneJoins(t, u, c)
  {
    hide Grown;
    forall h, d | h != Ready && d in Q(u, h) ensures d in Q(t, h) {
      assert Suffix(Q(t, h), Q(u, h));
    }
  }

  /** A call of the scheduler kills nobody and revives nobody. */
  lemma DispatchLives(t: Tasks, hart: int, now: int)
    requires Inside(t, hart) && IsHart(hart)
    ensures Sized(t) && Sized(Dispatch(t, hart, now))
    ensures forall c :: IsPcb(c) ==> (Dispatch(t, hart, now).status[c] == EXITED <==> t.status[c] == EXITED)
  {
    hide Queued, Harts, Elsewhere, Statuses, Dispatch, Chosen, InOrder;
    InsideQueued(t, hart);
    var woke := DispatchEffect(t, hart, now);
    DispatchMoves(t, hart, now);
  }

  lemma ExitLives(k: K, e: Event)
    requires Good(k) && Inside(k.t, e.hart) && Busy(k.t, e.hart)
    ensures Sane(ExitStep(k, e)) && Shape(ExitStep(k, e)) && NoneJoins(k.t, ExitStep(k, e).t, IDLE)
    ensures forall d :: IsPcb(d) ==>
              (ExitStep(k, e).t.status[d] == EXITED <==> k.t.status[d] == EXITED || d == k.t.cur[e.hart])
  {
    hide Waiting, Owned, Counted, Streams, Queued, Harts, Elsewhere, Unburdened, Dispatched, Dispatch, Free, Calm,
         NoneJoins;
    var c := k.t.cur[e.hart];
    ExitSane(k, e);
    UnburdenedGood(k, e.hart, c);
    var u := Unburdened(k, c);
    CalmJoins(k.t, u.t, IDLE);
    CalmLives(k.t, u.t);
    CallerStays(k, e.hart, u.t);
    DeadGood(u, e.hart, c);
    var t1 := Dead(u, c).t;
    StatusJoins(u.t, t1, IDLE);
    DispatchLives(t1, e.hart, e.now);
    var woke := DispatchEffect(t1, e.hart, e.now);
    DispatchedJoins(t1, e.hart, e.now, woke, ExitStep(k, e).t, IDLE);
    NoneJoinsTrans(k.t, u.t, t1, IDLE);
    NoneJoinsTrans(k.t, t1, ExitStep(k, e).t, IDLE);
  }

  lemma StatusJoins(t: Tasks, u: Tasks, c: int)
    requires u.q == t.q
    ensures NoneJoins(t, u, c)
  {
    assert forall h :: Q(u, h) == Q(t, h);
  }

  lemma KilledJoins(k: K, c: int)
    requires Sane(k) && IsPcb(c) && k.t.status[c] != RUNNING && k.t.status[c] != EXITED
    ensures NoneJoins(k.t, Killed(k, c).t, IDLE)
  {
    hide Waiting, Owned, Counted, Streams, Inside, Unburdened, Free, Calm, NoneJoins;
    UnburdenedGood(k, IDLE, c);
    var u := Unburdened(k, c);
    CalmJoins(k.t, u.t, IDLE);
    UnqueuedJoins(u, c);
    NoneJoinsTrans(k.t, u.t, Killed(k, c).t, IDLE);
  }

  lemma UnqueuedJoins(k: K, c: int)
    requires Shape(k) && IsPcb(c)
    ensures NoneJoins(k.t, Dead(Unqueued(k, c), c).t, IDLE)
  {
    hide Position;
  }

  /** After a kill exactly the victims are newly dead, and nobody has joined a wait queue. */
  lemma {:induction false} KillLives(k: K, e: Event, p: int, i: nat)
    requires Sane(k) && Busy(k.t, e.hart) && i <= N
    requires forall c :: IsPcb(c) && k.t.status[c] == RUNNING && k.x.pid[c] == p ==> c == k.t.cur[e.hart]
    requires forall j :: 0 <= j < i ==> k.t.status[j] == EXITED || k.x.pid[j] != p
    ensures Shape(k) && Shape(KillStep(k, e, p, i)) && NoneJoins(k.t, KillStep(k, e, p, i).t, IDLE)
    ensures forall d :: IsPcb(d) ==>
              (KillStep(k, e, p, i).t.status[d] == EXITED <==> k.t.status[d] == EXITED || d in Victims(k, e.hart, p))
    decreases N - i
  {
    hide Waiting, Owned, Counted, Streams, Queued, Killed, ExitStep, Unburdened, Inside, NoneJoins;
    if i == N {
      StatusJoins(k.t, k.t, IDLE);
    } else if k.t.status[i] == EXITED || k.x.pid[i] != p {
      KillLives(k, e, p, i + 1);
    } else if i == k.t.cur[e.hart] {
      Enter(k.t, e.hart);
      ExitLives(k, e);
      assert Victims(k, e.hart, p) == {i};
    } else {
      var u := Killed(k, i);
      KilledGood(k, IDLE, i);
      KilledOnly(k, i);
      KilledJoins(k, i);
      KillLives(u, e, p, i + 1);
      NoneJoinsTrans(k.t, u.t, KillStep(u, e, p, i + 1).t, IDLE);
      VictimsAfter(k, u, e.hart, p, i);
    }
  }

  /** A kill ends exactly its victims, frees every lock of the pid, and leaves nobody asleep who waited for a victim or
      for such a lock. */
  lemma KillEffect(k: K, e: Event, p: int, d: int)
    requires Sane(k) && Enabled(k, e) && e.op == Kill(p) && IsPcb(d)
    ensures Shape(k) && Shape(Apply(k, e)) && Busy(k.t, e.hart)
    ensures var k', v := Apply(k, e), Victims(k, e.hart, p);
            && (k'.t.status[d] == EXITED <==> k.t.status[d] == EXITED || d in v)
            && (forall l :: IsObj(l) ==> (k'.x.locks[l].locked <==> k.x.locks[l].locked && k.x.locks[l].owner != p))
            && ((exists c :: c in v && d in Q(k.t, Waiters(c))) ==> k'.t.status[d] != BLOCKED)
            && ((exists l :: OwnedBy(k, p, l) && d in Q(k.t, Lock(l))) ==> k'.t.status[d] != BLOCKED)
  {
    hide Waiting, Owned, Counted, Streams, Inside, KillStep;
    KillLives(k, e, p, 0);
    KillCut(k, e, p, 0);
    StepSane(k, e);
    var k', v := Apply(k, e), Victims(k, e.hart, p);
    forall c | c in v && d in Q(k.t, Waiters(c)) ensures k'.t.status[d] != BLOCKED {
      AwakeNow(k, k', d, Waiters(c));
    }
    forall l | OwnedBy(k, p, l) && d in Q(k.t, Lock(l)) ensures k'.t.status[d] != BLOCKED {
      AwakeNow(k, k', d, Lock(l));
    }
  }

  /** Nobody waits for the dead or for a free lock. */
  lemma NotThere(k: K, d: int, h: Head)
    requires Sane(k) && Shape(k)
    requires (h.Waiters? && IsPcb(h.pcb) && k.t.status[h.pcb] == EXITED)
          || (h.Lock? && IsObj(h.i) && !k.x.locks[h.i].locked)
    ensures d !in Q(k.t, h)
  {
    hide Owned, Counted, Streams, Queued, Harts, Elsewhere;
    InsideQueued(k.t, IDLE);
    OnlyPlace(k.t, d, h);
  }

  /** Whoever is off its queue and has joined no other does not sleep. */
  lemma AwakeNow(k: K, k': K, d: int, h: Head)
    requires Sane(k) && Sane(k') && NoneJoins(k.t, k'.t, IDLE) && d in Q(k.t, h) && h != Ready
    requires Shape(k') && IsPcb(d)
    requires (h.Waiters? && IsPcb(h.pcb) && k'.t.status[h.pcb] == EXITED)
          || (h.Lock? && IsObj(h.i) && !k'.x.locks[h.i].locked)
    ensures k'.t.status[d] != BLOCKED
  {
    hide Good, Queued, Harts, Elsewhere;
    InsideQueued(k.t, IDLE);
    NotThere(k', d, h);
    forall g | g != Ready ensures d !in Q(k'.t, g) {
      OnlyPlace(k.t, d, h);
      OnlyPlace(k.t, d, g);
    }
    NowhereAsleep(k'.t, d);
  }

  lemma NowhereAsleep(t: Tasks, d: int)
    requires Stable(t) && Sized(t) && IsPcb(d) && forall g :: g != Ready ==> d !in Q(t, g)
    ensures t.status[d] != BLOCKED
  {
    if t.at[d].On? {
      OnlyPlace(t, d, t.at[d].h);
    }
  }
}
