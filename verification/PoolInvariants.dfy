/** What every step of the thread pool keeps: who holds the pool mutex, what
    nWaiting counts, where each task is, and that no wakeup is lost. */
module PoolInvariants {
  import opened Wrappers
  import opened PoolMachine

  // ---------------------------------------------------------------- counting

  /** How many workers are at a program counter that satisfies f. */
  ghost function Count(ws: seq<Worker>, f: Pc -> bool): nat {
    if ws == [] then 0
    else Count(ws[..|ws| - 1], f) + if f(ws[|ws| - 1].pc) then 1 else 0
  }

  lemma {:induction false} CountUpdate(ws: seq<Worker>, i: nat, v: Worker, f: Pc -> bool)
    requires i < |ws|
    ensures Count(ws[i := v], f) + (if f(ws[i].pc) then 1 else 0) == Count(ws, f) + (if f(v.pc) then 1 else 0)
  {
    var n := |ws| - 1;
    if i == n {
      assert ws[i := v][..n] == ws[..n];
    } else {
      assert ws[i := v][..n] == ws[..n][i := v];
      CountUpdate(ws[..n], i, v, f);
    }
  }

  lemma {:induction false} CountSame(ws: seq<Worker>, vs: seq<Worker>, f: Pc -> bool)
    requires |ws| == |vs| && forall i | 0 <= i < |ws| :: f(ws[i].pc) == f(vs[i].pc)
    ensures Count(ws, f) == Count(vs, f)
  {
    if ws != [] {
      CountSame(ws[..|ws| - 1], vs[..|vs| - 1], f);
    }
  }

  lemma {:induction false} CountAppend(ws: seq<Worker>, v: Worker, f: Pc -> bool)
    ensures Count(ws + [v], f) == Count(ws, f) + if f(v.pc) then 1 else 0
  {
  }

  lemma {:induction false} CountBound(ws: seq<Worker>, f: Pc -> bool)
    ensures Count(ws, f) <= |ws|
    ensures Count(ws, f) == 0 ==> forall i | 0 <= i < |ws| :: !f(ws[i].pc)
  {
    if ws != [] {
      CountBound(ws[..|ws| - 1], f);
      assert forall i | 0 <= i < |ws| - 1 :: ws[i] == ws[..|ws| - 1][i];
    }
  }

  /** A move of a worker changes its own program counter and no other worker. */
  lemma WorkShape(s: Pool, w: WorkerId)
    requires CanWork(s, w)
    ensures var s' := ApplyWork(s, w);
      && |s'.workers| == |s.workers|
      && s'.workers == SetPc(s.workers, w, s'.workers[w].pc)
      && s'.workers[w].pc == NextPc(s, w)
      && s'.mutex == NextMutex(s, w)
      && s'.pending == s.pending
      && s'.isDone == s.isDone && s'.committed == s.committed && s'.returned == s.returned && s'.hadWorkers == s.hadWorkers
      && s'.ctl == s.ctl && s'.threads == s.threads && s'.isStop == s.isStop && s'.shrunk == s.shrunk && s'.alerted == s.alerted
      && s'.q == (if TakesTask(s, w) then s.q[1..] else s.q)
      && s'.owner == if TakesTask(s, w) then s.owner[s.q[0] := ByWorker(w)] else s.owner
  {
  }

  /** How a move of a worker changes the number of workers at f. */
  lemma CountWork(s: Pool, w: WorkerId, f: Pc -> bool)
    requires CanWork(s, w)
    ensures var s' := ApplyWork(s, w);
      w < |s'.workers| &&
      Count(s'.workers, f) + (if f(s.workers[w].pc) then 1 else 0)
        == Count(s.workers, f) + (if f(s'.workers[w].pc) then 1 else 0)
  {
    WorkShape(s, w);
    var s' := ApplyWork(s, w);
    CountUpdate(s.workers, w, s'.workers[w], f);
  }

  /** How a notification changes the number of workers at f. */
  lemma CountNotify(s: Pool, t: Task, woken: Option<WorkerId>, f: Pc -> bool)
    requires CanNotify(s, t, woken)
    ensures Count(ApplyNotify(s, t, woken).workers, f) + (if woken.Some? && f(Asleep) then 1 else 0)
         == Count(s.workers, f) + (if woken.Some? && f(Signalled) then 1 else 0)
  {
    if woken.Some? {
      CountUpdate(s.workers, woken.value, s.workers[woken.value].(pc := Signalled), f);
    }
  }

  /** A move of the controller spawns a worker, raises one flag or wakes every
      sleeper; it touches no other program counter, and lowers no flag. */
  lemma ControlShape(s: Pool)
    requires CanControl(s)
    ensures var s' := ApplyControl(s);
      && |s.workers| <= |s'.workers|
      && (forall i | 0 <= i < |s.workers| :: s.workers[i].flag ==> s'.workers[i].flag)
      && (s.ctl.StopNotify? || s.ctl.ShrinkNotify? ==> s.mutex.None? && s'.workers == WakeAll(s.workers))
      && (!s.ctl.StopNotify? && !s.ctl.ShrinkNotify? ==>
            forall i | 0 <= i < |s.workers| :: s'.workers[i].pc == s.workers[i].pc)
      && (|s'.workers| != |s.workers| ==> s.ctl.Growing? && s'.workers == s.workers + [Worker(Popping, false)])
      && s'.pending == s.pending
      && s'.isDone == s.isDone && s'.isStop == s.isStop && s'.mutex == s.mutex
      && s'.committed == s.committed && s'.returned == s.returned && s'.hadWorkers == s.hadWorkers
      && s'.q == (if Discards(s) then s.q[1..] else s.q)
      && s'.owner == if Discards(s) then s.owner[s.q[0] := Discarded] else s.owner
  {
  }

  /** How a move of the controller changes the number of workers at f, for a
      property that waking the sleepers keeps. */
  lemma CountControl(s: Pool, f: Pc -> bool)
    requires CanControl(s)
    requires s.ctl.StopNotify? || s.ctl.ShrinkNotify? ==> (f(Asleep) <==> f(Signalled))
    ensures var s' := ApplyControl(s);
      Count(s'.workers, f) == Count(s.workers, f) + if |s'.workers| != |s.workers| && f(Popping) then 1 else 0
  {
    ControlShape(s);
    var s' := ApplyControl(s);
    if |s'.workers| != |s.workers| {
      CountAppend(s.workers, Worker(Popping, false), f);
    } else {
      CountSame(s.workers, s'.workers, f);
    }
  }

  // ---------------------------------------------------------------- the mutex

  /** The pool mutex is held by exactly the worker whose program counter says so. */
  ghost predicate MutexInv(s: Pool) {
    && (s.mutex.Some? ==> s.mutex.value < |s.workers|)
    && (forall w | 0 <= w < |s.workers| :: Holds(s.workers[w].pc) <==> s.mutex == Some(w))
  }

  lemma MutexWork(s: Pool, w: WorkerId)
    requires MutexInv(s) && CanWork(s, w)
    ensures MutexInv(ApplyWork(s, w))
  {
  }

  lemma MutexControl(s: Pool)
    requires MutexInv(s) && CanControl(s)
    ensures MutexInv(ApplyControl(s))
  {
    ControlShape(s);
    hide ApplyControl;
  }

  // ---------------------------------------------------------------- nWaiting

  /** nWaiting is the number of workers inside the wait region. */
  ghost predicate WaitCountInv(s: Pool) {
    s.nWaiting == Count(s.workers, InWait)
  }

  lemma WaitCountWork(s: Pool, w: WorkerId)
    requires WaitCountInv(s) && CanWork(s, w)
    ensures WaitCountInv(ApplyWork(s, w))
  {
    CountWork(s, w, InWait);
  }

  lemma WaitCountControl(s: Pool)
    requires WaitCountInv(s) && CanControl(s)
    ensures WaitCountInv(ApplyControl(s))
  {
    CountControl(s, InWait);
  }

  // ---------------------------------------------------------------- tasks

  ghost predicate NoDup(ts: seq<Task>) {
    forall i, j | 0 <= i < j < |ts| :: ts[i] != ts[j]
  }

  /** Conservation and first-in first-out order: what has been enqueued is what
      has been removed followed by what the queue still holds, without
      repetition; a task is enqueued once, by one call to push. */
  ghost predicate FifoInv(s: Pool) {
    && s.enqueued == s.removed + s.q
    && NoDup(s.enqueued)
    && (forall t :: t in s.enqueued <==> t in s.pending || t in s.returned)
    && s.pending !! s.returned
    && (forall t :: t in s.owner <==> t in s.removed)
  }

  lemma FifoTake(s: Pool, who: Owner)
    requires FifoInv(s) && s.q != []
    ensures FifoInv(Take(s, who))
    ensures s.q[0] !in s.owner && s.q[0] in s.enqueued
  {
    assert s.removed + s.q == (s.removed + [s.q[0]]) + s.q[1..];
    assert s.enqueued[|s.removed|] == s.q[0];
    assert forall i | 0 <= i < |s.removed| :: s.removed[i] == s.enqueued[i];
  }

  lemma FifoWork(s: Pool, w: WorkerId)
    requires FifoInv(s) && CanWork(s, w)
    ensures FifoInv(ApplyWork(s, w))
  {
  }

  lemma FifoControl(s: Pool)
    requires FifoInv(s) && CanControl(s)
    ensures FifoInv(ApplyControl(s))
  {
    if Discards(s) { FifoTake(s, Discarded); }
  }

  lemma FifoEnqueue(s: Pool, t: Task)
    requires FifoInv(s) && Enabled(s, Enqueue(t))
    ensures FifoInv(ApplyEnqueue(s, t))
  {
  }

  /** The task a worker has taken and not yet finished. */
  predicate Carries(pc: Pc, t: Task) {
    pc == PopHold(t) || pc == Running(t)
  }

  /** A removed task has one owner.  A worker that owns it has either run it
      exactly once or is still carrying it; a discarded task never runs. */
  ghost predicate OwnerInv(s: Pool) {
    && (forall t | t in s.owner && s.owner[t].ByWorker? :: RunOnce(s, t, s.owner[t].worker))
    && (forall t :: (t in s.owner ==> s.owner[t].Discarded?) ==> s.runs[t] == 0)
    && (forall w | 0 <= w < |s.workers| :: OwnsLoad(s, w))
  }

  ghost predicate RunOnce(s: Pool, t: Task, w: WorkerId) {
    w < |s.workers| && s.runs[t] == if Carries(s.workers[w].pc, t) then 0 else 1
  }

  ghost predicate OwnsLoad(s: Pool, w: WorkerId)
    requires w < |s.workers|
  {
    var pc := s.workers[w].pc;
    pc.PopHold? || pc.Running? ==> pc.task in s.owner && s.owner[pc.task] == ByWorker(w)
  }

  lemma OwnerWork(s: Pool, w: WorkerId)
    requires FifoInv(s) && OwnerInv(s) && CanWork(s, w)
    ensures OwnerInv(ApplyWork(s, w))
  {
    if TakesTask(s, w) { OwnerTake(s, w); }
    else { OwnerKeep(s, w); }
  }

  lemma OwnerTake(s: Pool, w: WorkerId)
    requires FifoInv(s) && OwnerInv(s) && CanWork(s, w) && TakesTask(s, w)
    ensures OwnerInv(ApplyWork(s, w))
  {
    FifoTake(s, ByWorker(w));
    hide FifoInv;
    var s' := ApplyWork(s, w);
    forall t | t in s'.owner && s'.owner[t].ByWorker? ensures RunOnce(s', t, s'.owner[t].worker) {
      assert t == s.q[0] || RunOnce(s, t, s.owner[t].worker);
    }
    forall v | 0 <= v < |s'.workers| ensures OwnsLoad(s', v) {
      assert OwnsLoad(s, v);
    }
  }

  lemma OwnerKeep(s: Pool, w: WorkerId)
    requires OwnerInv(s) && CanWork(s, w) && !TakesTask(s, w)
    ensures OwnerInv(ApplyWork(s, w))
  {
    var s' := ApplyWork(s, w);
    forall t | t in s'.owner && s'.owner[t].ByWorker? ensures RunOnce(s', t, s'.owner[t].worker) {
      assert RunOnce(s, t, s.owner[t].worker);
      assert OwnsLoad(s, w);
    }
    forall v | 0 <= v < |s'.workers| ensures OwnsLoad(s', v) {
      assert OwnsLoad(s, v);
    }
    forall t | t in s'.owner ==> s'.owner[t].Discarded? ensures s'.runs[t] == 0 {
      assert OwnsLoad(s, w);
    }
  }

  lemma OwnerControl(s: Pool)
    requires FifoInv(s) && OwnerInv(s) && CanControl(s)
    ensures OwnerInv(ApplyControl(s))
  {
    if Discards(s) { FifoTake(s, Discarded); }
    hide FifoInv;
    ControlShape(s);
    var s' := ApplyControl(s);
    forall t | t in s'.owner && s'.owner[t].ByWorker? ensures RunOnce(s', t, s'.owner[t].worker) {
      assert RunOnce(s, t, s.owner[t].worker);
    }
    forall v | 0 <= v < |s'.workers| ensures OwnsLoad(s', v) {
      assert v < |s.workers| ==> OwnsLoad(s, v);
    }
  }

  // ---------------------------------------------------------------- wakeups

  /** The next queue operation of the worker is a pop. */
  predicate AboutToPop(pc: Pc) {
    pc.Popping? || pc.WantLock? || pc.InPred? || pc.Signalled?
  }

  /** The worker sleeps or can fall asleep without another pop. */
  predicate Drowsy(pc: Pc) {
    pc.Asleep? || pc.CheckedEmpty? || pc.CheckedNotDone?
  }

  /** Every queued task is matched by a notification still to come or by a
      worker whose next move on the queue is a pop. */
  ghost predicate Covered(s: Pool) {
    |s.q| <= |s.pending| + Count(s.workers, AboutToPop)
  }

  /** No lost wakeup: while some worker sleeps, or has seen an empty queue under
      the mutex, every queued task is covered. */
  ghost predicate WakeupInv(s: Pool) {
    (exists w :: 0 <= w < |s.workers| && Drowsy(s.workers[w].pc)) ==> Covered(s)
  }

  lemma WakeupNotify(s: Pool, t: Task, woken: Option<WorkerId>)
    requires MutexInv(s) && WakeupInv(s) && CanNotify(s, t, woken)
    ensures WakeupInv(ApplyNotify(s, t, woken))
  {
    CountNotify(s, t, woken, AboutToPop);
  }

  lemma WakeupWork(s: Pool, w: WorkerId)
    requires MutexInv(s) && WakeupInv(s) && CanWork(s, w)
    ensures WakeupInv(ApplyWork(s, w))
  {
    WorkShape(s, w);
    CountWork(s, w, AboutToPop);
    hide ApplyWork;
    var s' := ApplyWork(s, w);
    if Drowsy(NextPc(s, w)) && !Drowsy(s.workers[w].pc) {
      assert s'.q == [];
    } else if v :| 0 <= v < |s'.workers| && Drowsy(s'.workers[v].pc) {
      assert Drowsy(s.workers[v].pc);
    }
  }

  lemma WakeupControl(s: Pool)
    requires MutexInv(s) && WakeupInv(s) && CanControl(s)
    ensures WakeupInv(ApplyControl(s))
  {
    ControlShape(s);
    if !s.ctl.StopNotify? && !s.ctl.ShrinkNotify? { CountControl(s, AboutToPop); }
    hide ApplyControl, CanControl;
    var s' := ApplyControl(s);
    if v :| 0 <= v < |s'.workers| && Drowsy(s'.workers[v].pc) {
      assert s.ctl.StopNotify? || s.ctl.ShrinkNotify? ==> Holds(s.workers[v].pc);
      assert v < |s.workers| && Drowsy(s.workers[v].pc);
    }
  }

  // ---------------------------------------------------------------- the controller

  /** Which stop flags are raised, and what the controller's position implies. */
  ghost predicate CtlInv(s: Pool) {
    && CtlOk(s)
    && (forall i, j | 0 <= i < j < |s.threads| :: s.threads[i] != s.threads[j])
    && (s.ctl.Growing? || s.ctl.Flagging? || s.ctl.ShrinkNotify? ==> !s.isStop && !s.isDone)
    && (s.ctl.StopFlags? || s.ctl.StopClear? ==> s.isStop)
    && (s.ctl.StopNotify? || s.ctl.Joining? || s.ctl.FinalClear? ==> s.isStop || s.isDone)
    && (s.ctl.Joining? || s.ctl.FinalClear? ==> s.alerted)
    && (s.alerted ==> s.isStop || s.isDone)
    && (s.alerted && (s.ctl.StopFlags? || s.ctl.StopClear? || s.ctl.StopNotify?) ==> s.isDone)
    && (s.isStop || s.isDone ==> s.alerted || s.ctl.StopFlags? || s.ctl.StopClear? || s.ctl.StopNotify?)
    && (s.alerted && !s.ctl.Joining? && !s.ctl.FinalClear? ==> s.threads == [])
    && (s.ctl.Flagging? || s.ctl.ShrinkNotify? ==> s.shrunk)
    && (!s.shrunk && !s.isDone && !s.isStop ==> |s.threads| == |s.workers|)
    && (!s.shrunk && s.isDone && !s.isStop && !s.hadWorkers ==> s.workers == [])
  }

  /** The position from which on attached workers are flagged. */
  function FlagBase(s: Pool): nat {
    if s.ctl.Flagging? then s.ctl.next else if s.ctl.ShrinkNotify? then s.ctl.target else |s.threads|
  }

  /** Attached workers are flagged exactly as far as the loops of `resize` and
      `stop(false)` have come; a worker that is no longer attached is flagged or gone. */
  ghost predicate FlagInv(s: Pool)
    requires CtlOk(s)
  {
    && (!s.isStop ==> forall i | 0 <= i < |s.threads| :: s.workers[s.threads[i]].flag <==> i >= FlagBase(s))
    && (s.isStop ==> forall i | 0 <= i < |s.threads| && (s.ctl.StopFlags? ==> i < s.ctl.next) :: s.workers[s.threads[i]].flag)
    && (forall w | 0 <= w < |s.workers| && w !in s.threads :: s.workers[w].flag || s.workers[w].pc.Exited?)
    && (!s.shrunk && !s.isStop ==> forall w | 0 <= w < |s.workers| :: !s.workers[w].flag)
  }

  /** The threads joined so far have exited. */
  ghost predicate JoinInv(s: Pool)
    requires CtlOk(s)
  {
    forall i | 0 <= i < |s.threads| && ((s.ctl.Joining? && i < s.ctl.next) || s.ctl.FinalClear?) ::
      s.workers[s.threads[i]].pc.Exited?
  }

  lemma CtlControl(s: Pool)
    requires CtlInv(s) && CanControl(s)
    ensures CtlInv(ApplyControl(s))
  {
  }

  lemma FlagControl(s: Pool)
    requires CtlInv(s) && FlagInv(s) && JoinInv(s) && CanControl(s) && CtlInv(ApplyControl(s))
    ensures FlagInv(ApplyControl(s))
  {
    if Spawns(s) { FlagSpawn(s); }
    else if Flagged(s).Some? { FlagRaise(s); }
    else { FlagKeep(s); }
  }

  lemma FlagSpawn(s: Pool)
    requires CtlInv(s) && FlagInv(s) && CanControl(s) && Spawns(s) && CtlInv(ApplyControl(s))
    ensures FlagInv(ApplyControl(s))
  {
    var s' := ApplyControl(s);
    var n := |s.workers|;
    assert s'.workers[n] == Worker(Popping, false) && s'.threads[|s.threads|] == n;
    assert forall w | 0 <= w < n :: s'.workers[w] == s.workers[w];
    assert forall w | w in s.threads :: w in s'.threads;
  }

  lemma FlagRaise(s: Pool)
    requires CtlInv(s) && FlagInv(s) && CanControl(s) && Flagged(s).Some? && CtlInv(ApplyControl(s))
    ensures FlagInv(ApplyControl(s))
  {
    var s' := ApplyControl(s);
    var i := Flagged(s).value;
    assert s'.workers == SetFlag(s.workers, s.threads[i]) && s'.threads == s.threads;
    assert forall j | 0 <= j < |s.threads| && j != i :: s'.workers[s.threads[j]] == s.workers[s.threads[j]];
  }

  lemma FlagKeep(s: Pool)
    requires CtlInv(s) && FlagInv(s) && CanControl(s) && !Spawns(s) && Flagged(s).None? && CtlInv(ApplyControl(s))
    requires JoinInv(s)
    ensures FlagInv(ApplyControl(s))
  {
    var s' := ApplyControl(s);
    ControlShape(s);
    assert forall w | 0 <= w < |s.workers| :: s'.workers[w].flag == s.workers[w].flag;
    forall w | 0 <= w < |s'.workers| && w !in s'.threads ensures s'.workers[w].flag || s'.workers[w].pc.Exited? {
      if w in s.threads {
        var i :| 0 <= i < |s.threads| && s.threads[i] == w;
        assert s.ctl.ShrinkNotify? ==> s'.threads == s.threads[..s.ctl.target] && i >= s.ctl.target;
      }
    }
  }

  lemma JoinControl(s: Pool)
    requires CtlInv(s) && JoinInv(s) && CanControl(s) && CtlInv(ApplyControl(s))
    ensures JoinInv(ApplyControl(s))
  {
  }

  // ---------------------------------------------------------------- draining

  /** No task whose push had returned when stop(true) set isDone is in the queue. */
  ghost predicate Drained(s: Pool) {
    forall t | t in s.q :: t !in s.committed
  }

  /** The worker holds the mutex since the predicate's pop has found nothing. */
  predicate SawEmpty(pc: Pc) {
    pc.CheckedEmpty? || pc.CheckedNotDone? || pc.Quitting?
  }

  ghost predicate DrainInv(s: Pool) {
    && (forall w | 0 <= w < |s.workers| && SawEmpty(s.workers[w].pc) :: forall t | t in s.q :: t in s.pending)
    && s.committed <= s.returned
    && (!s.isDone ==> s.committed == {} && !s.hadWorkers)
    && (forall w | 0 <= w < |s.workers| && s.workers[w].pc.Quitting? && !s.workers[w].flag :: s.isDone)
    && (forall w | 0 <= w < |s.workers| && s.workers[w].pc.Exited? && !s.workers[w].flag :: s.isDone && Drained(s))
  }

  /** What stop(true) has done so far with the committed tasks. */
  ghost predicate StopInv(s: Pool) {
    && (!s.isStop && !s.isDone ==> forall t | t in s.owner :: !s.owner[t].Discarded?)
    && (s.isDone && !s.isStop && (s.ctl.StopNotify? || s.ctl.Joining?) ==> (s.hadWorkers <==> s.threads != []))
    && (s.hadWorkers && (s.isStop || !(s.ctl.StopNotify? || s.ctl.Joining?)) ==> Drained(s))
    && (s.isDone && !s.isStop && s.ctl.Idle? ==> Drained(s))
    && (s.hadWorkers ==> forall t | t in s.committed && t in s.owner :: !s.owner[t].Discarded?)
  }

  lemma DrainWork(s: Pool, w: WorkerId)
    requires MutexInv(s) && FifoInv(s) && DrainInv(s) && CanWork(s, w)
    ensures DrainInv(ApplyWork(s, w))
  {
    WorkShape(s, w);
    hide ApplyWork;
    var s' := ApplyWork(s, w);
    assert forall t | t in s'.q :: t in s.q;
  }

  lemma DrainControl(s: Pool)
    requires MutexInv(s) && FifoInv(s) && CtlInv(s) && DrainInv(s) && CanControl(s)
    ensures DrainInv(ApplyControl(s))
  {
    ControlShape(s);
    hide ApplyControl;
    assert forall t | t in ApplyControl(s).q :: t in s.q;
  }

  lemma StopControl(s: Pool)
    requires FifoInv(s) && CtlInv(s) && FlagInv(s) && JoinInv(s) && DrainInv(s) && StopInv(s) && CanControl(s)
    ensures StopInv(ApplyControl(s))
  {
    var s' := ApplyControl(s);
    assert s'.committed == s.committed && s'.isStop == s.isStop && s'.isDone == s.isDone && s'.hadWorkers == s.hadWorkers;
    assert forall t | t in s'.q :: t in s.q;
    if s.hadWorkers && !s.isStop && s.ctl.Joining? && s.ctl.next == |s.threads| {
      assert s.workers[s.threads[0]].pc.Exited? && !s.workers[s.threads[0]].flag;
      assert Drained(s);
    }
    assert s'.owner == s.owner || (Discards(s) && s'.owner == s.owner[s.q[0] := Discarded]);
  }

  // ---------------------------------------------------------------- after notify_all

  /** Once a stop has notified, nobody sleeps and nobody is on the way to sleep. */
  ghost predicate AlertInv(s: Pool) {
    s.alerted ==> forall w | 0 <= w < |s.workers| ::
      !s.workers[w].pc.Asleep? && (s.workers[w].pc.CheckedNotDone? ==> s.workers[w].flag)
  }

  lemma AlertWork(s: Pool, w: WorkerId)
    requires CtlInv(s) && FlagInv(s) && AlertInv(s) && CanWork(s, w)
    ensures AlertInv(ApplyWork(s, w))
  {
  }

  lemma AlertControl(s: Pool)
    requires MutexInv(s) && CtlInv(s) && AlertInv(s) && CanControl(s)
    ensures AlertInv(ApplyControl(s))
  {
  }

  // ---------------------------------------------------------------- all together

  ghost predicate Inv(s: Pool) {
    && MutexInv(s) && WaitCountInv(s) && FifoInv(s) && OwnerInv(s) && WakeupInv(s)
    && CtlInv(s) && FlagInv(s) && JoinInv(s) && DrainInv(s) && StopInv(s) && AlertInv(s)
  }

  lemma InvInit()
    ensures Inv(INIT)
  {
  }

  /** Waking one sleeper, or none, changes no other worker. */
  ghost predicate WokeAtMostOne(ws: seq<Worker>, ws': seq<Worker>) {
    && |ws'| == |ws|
    && forall w | 0 <= w < |ws| :: ws'[w] == ws[w] || (ws[w].pc.Asleep? && ws'[w] == ws[w].(pc := Signalled))
  }

  /** Neither half of push moves a task out of the queue, the controller, or a flag. */
  lemma InvPush(s: Pool, s': Pool)
    requires MutexInv(s) && OwnerInv(s) && CtlInv(s) && FlagInv(s) && JoinInv(s) && AlertInv(s)
    requires s' == s.(q := s'.q, workers := s'.workers, pending := s'.pending, returned := s'.returned, enqueued := s'.enqueued)
    requires WokeAtMostOne(s.workers, s'.workers)
    ensures MutexInv(s') && OwnerInv(s') && CtlInv(s') && FlagInv(s') && JoinInv(s') && AlertInv(s')
  {
    forall v | 0 <= v < |s'.workers| ensures OwnsLoad(s', v) {
      assert OwnsLoad(s, v);
    }
    forall t | t in s'.owner && s'.owner[t].ByWorker? ensures RunOnce(s', t, s'.owner[t].worker) {
      assert RunOnce(s, t, s.owner[t].worker);
    }
  }

  lemma InvEnqueue(s: Pool, t: Task)
    requires Inv(s) && Enabled(s, Enqueue(t))
    ensures Inv(ApplyEnqueue(s, t))
  {
    var s' := ApplyEnqueue(s, t);
    FifoEnqueue(s, t);
    DrainEnqueue(s, t);
    InvPush(s, s');
    assert WaitCountInv(s') && WakeupInv(s') by { hide MutexInv, OwnerInv, CtlInv, FlagInv, JoinInv, AlertInv, FifoInv, DrainInv, StopInv; }
    hide MutexInv, OwnerInv, CtlInv, FlagInv, JoinInv, AlertInv, FifoInv, WakeupInv, DrainInv, StopInv, WaitCountInv;
  }

  lemma DrainEnqueue(s: Pool, t: Task)
    requires DrainInv(s) && StopInv(s) && Enabled(s, Enqueue(t))
    ensures DrainInv(ApplyEnqueue(s, t)) && StopInv(ApplyEnqueue(s, t))
  {
  }

  lemma InvNotify(s: Pool, t: Task, woken: Option<WorkerId>)
    requires Inv(s) && CanNotify(s, t, woken)
    ensures Inv(ApplyNotify(s, t, woken))
  {
    var s' := ApplyNotify(s, t, woken);
    assert WokeAtMostOne(s.workers, s'.workers);
    CountNotify(s, t, woken, InWait);
    WakeupNotify(s, t, woken);
    DrainNotify(s, t, woken);
    TasksNotify(s, t, woken);
    InvPush(s, s');
    hide MutexInv, OwnerInv, CtlInv, FlagInv, JoinInv, AlertInv, FifoInv, WakeupInv, DrainInv, StopInv;
  }

  lemma TasksNotify(s: Pool, t: Task, woken: Option<WorkerId>)
    requires FifoInv(s) && StopInv(s) && CanNotify(s, t, woken)
    ensures FifoInv(ApplyNotify(s, t, woken)) && StopInv(ApplyNotify(s, t, woken))
  {
  }

  lemma DrainNotify(s: Pool, t: Task, woken: Option<WorkerId>)
    requires MutexInv(s) && DrainInv(s) && CanNotify(s, t, woken)
    ensures DrainInv(ApplyNotify(s, t, woken))
  {
  }

  lemma InvWork(s: Pool, w: WorkerId)
    requires Inv(s) && CanWork(s, w)
    ensures Inv(ApplyWork(s, w))
  {
    hide MutexInv, WaitCountInv, FifoInv, OwnerInv, WakeupInv, CtlInv, FlagInv, JoinInv, DrainInv, StopInv, AlertInv;
    hide ApplyWork, CanWork, CtlOk;
    MutexWork(s, w);
    WaitCountWork(s, w);
    FifoWork(s, w);
    OwnerWork(s, w);
    WakeupWork(s, w);
    CtlWork(s, w);
    DrainWork(s, w);
    StopWork(s, w);
    AlertWork(s, w);
  }

  lemma CtlWork(s: Pool, w: WorkerId)
    requires CtlInv(s) && FlagInv(s) && JoinInv(s) && CanWork(s, w)
    ensures CtlInv(ApplyWork(s, w)) && FlagInv(ApplyWork(s, w)) && JoinInv(ApplyWork(s, w))
  {
    WorkShape(s, w);
    hide ApplyWork;
    var s' := ApplyWork(s, w);
    assert forall v | 0 <= v < |s.workers| ::
      s'.workers[v].flag == s.workers[v].flag && (s.workers[v].pc.Exited? ==> s'.workers[v].pc.Exited?);
    assert CtlInv(s');
  }

  lemma StopWork(s: Pool, w: WorkerId)
    requires FifoInv(s) && StopInv(s) && CanWork(s, w)
    ensures StopInv(ApplyWork(s, w))
  {
    WorkShape(s, w);
    hide ApplyWork;
    assert forall t | t in ApplyWork(s, w).q :: t in s.q;
  }

  /** Calls change nothing but the controller's position and what is announced. */
  lemma InvCall(s: Pool, s': Pool)
    requires Inv(s)
    requires s' == s.(ctl := s'.ctl, isDone := s'.isDone, isStop := s'.isStop, committed := s'.committed,
                      hadWorkers := s'.hadWorkers, shrunk := s'.shrunk)
    ensures MutexInv(s') && WaitCountInv(s') && FifoInv(s') && OwnerInv(s') && WakeupInv(s') && AlertInv(s')
  {
    hide CtlInv, FlagInv, JoinInv, DrainInv, StopInv;
    forall v | 0 <= v < |s'.workers| ensures OwnsLoad(s', v) {
      assert OwnsLoad(s, v);
    }
    forall t | t in s'.owner && s'.owner[t].ByWorker? ensures RunOnce(s', t, s'.owner[t].worker) {
      assert RunOnce(s, t, s.owner[t].worker);
    }
  }

  lemma InvResize(s: Pool, n: nat)
    requires Inv(s) && s.ctl.Idle?
    ensures Inv(ApplyResize(s, n))
  {
    hide MutexInv, WaitCountInv, FifoInv, OwnerInv, WakeupInv, AlertInv, WakeAll;
    InvCall(s, ApplyResize(s, n));
  }

  lemma InvStop(s: Pool, isWait: bool)
    requires Inv(s) && s.ctl.Idle?
    ensures Inv(ApplyStop(s, isWait))
  {
    InvCall(s, ApplyStop(s, isWait));
    CtlStop(s, isWait);
    DrainStop(s, isWait);
    hide MutexInv, WaitCountInv, FifoInv, OwnerInv, WakeupInv, AlertInv, DrainInv, StopInv, CtlInv, FlagInv, JoinInv,
         ApplyStop;
  }

  lemma CtlStop(s: Pool, isWait: bool)
    requires CtlInv(s) && FlagInv(s) && JoinInv(s) && s.ctl.Idle?
    ensures CtlInv(ApplyStop(s, isWait)) && FlagInv(ApplyStop(s, isWait)) && JoinInv(ApplyStop(s, isWait))
  {
  }

  lemma DrainStop(s: Pool, isWait: bool)
    requires FifoInv(s) && DrainInv(s) && StopInv(s) && s.ctl.Idle?
    ensures DrainInv(ApplyStop(s, isWait)) && StopInv(ApplyStop(s, isWait))
  {
  }

  lemma InvControl(s: Pool)
    requires Inv(s) && CanControl(s)
    ensures Inv(ApplyControl(s))
  {
    hide MutexInv, WaitCountInv, FifoInv, OwnerInv, WakeupInv, CtlInv, FlagInv, JoinInv, DrainInv, StopInv, AlertInv;
    hide ApplyControl, CanControl, CtlOk;
    MutexControl(s);
    WaitCountControl(s);
    FifoControl(s);
    OwnerControl(s);
    WakeupControl(s);
    CtlControl(s);
    FlagControl(s);
    JoinControl(s);
    DrainControl(s);
    StopControl(s);
    AlertControl(s);
  }

  lemma InvStep(s: Pool, step: Step)
    requires Inv(s) && Enabled(s, step)
    ensures Inv(Apply(s, step))
  {
    hide Inv, ApplyWork, ApplyControl, ApplyNotify, ApplyEnqueue, ApplyStop, ApplyResize;
    match step
    case Enqueue(t) => InvEnqueue(s, t);
    case NotifyOne(t, woken) => InvNotify(s, t, woken);
    case Work(w) => InvWork(s, w);
    case CallResize(n) => InvResize(s, n);
    case CallStop(isWait) => InvStop(s, isWait);
    case Control => InvControl(s);
  }

  lemma {:induction false} InvAfter(s: Pool, steps: seq<Step>)
    requires Inv(s) && ValidFrom(s, steps)
    ensures Inv(After(s, steps))
    decreases |steps|
  {
    hide Inv, Apply, Enabled;
    if steps != [] {
      InvStep(s, steps[0]);
      InvAfter(Apply(s, steps[0]), steps[1..]);
    }
  }

  lemma InvReachable(s: Pool)
    requires Reachable(s)
    ensures Inv(s)
  {
    var steps :| ValidFrom(INIT, steps) && After(INIT, steps) == s;
    InvInit();
    InvAfter(INIT, steps);
  }
}
