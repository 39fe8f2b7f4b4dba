/** What the thread pool promises over whole runs: every task is accounted for,
    no wakeup is lost, stop(true) drains, stop(false) bounds the remaining work,
    and both terminate. */
module PoolShutdown {
  import opened Wrappers
  import opened PoolMachine
  import opened PoolInvariants

  // ---------------------------------------------------------------- every state

  /** Conservation and order in every reachable state: the queue is what is left
      of the enqueued tasks, and a task that has left it has one owner. */
  lemma EveryTaskAccountedFor(s: Pool)
    requires Reachable(s)
    ensures s.enqueued == s.removed + s.q && NoDup(s.enqueued)
    ensures forall t :: t in s.enqueued <==> t in s.owner || t in s.q
    ensures forall t :: !(t in s.owner && t in s.q)
  {
    InvReachable(s);
    hide WakeupInv, CtlInv, FlagInv, JoinInv, DrainInv, StopInv, AlertInv, MutexInv, OwnerInv, WaitCountInv;
    NoDupApart(s.removed, s.q);
  }

  lemma NoDupApart(a: seq<Task>, b: seq<Task>)
    requires NoDup(a + b)
    ensures forall t | t in a :: t !in b
  {
    forall i, j | 0 <= i < |a| && 0 <= j < |b| ensures a[i] != b[j] {
      assert (a + b)[i] == a[i] && (a + b)[|a| + j] == b[j];
    }
  }

  /** No task runs twice, no two workers hold the same task, and a task has run
      exactly when a worker owns it and has put it down. */
  lemma NoTaskRunsTwice(s: Pool, t: Task)
    requires Reachable(s)
    ensures s.runs[t] <= 1
    ensures s.runs[t] == 1 <==>
              t in s.owner && s.owner[t].ByWorker? && s.owner[t].worker < |s.workers| &&
              !Carries(s.workers[s.owner[t].worker].pc, t)
    ensures forall v, w | 0 <= v < |s.workers| && 0 <= w < |s.workers| &&
              Carries(s.workers[v].pc, t) && Carries(s.workers[w].pc, t) :: v == w
  {
    InvReachable(s);
    hide WakeupInv, CtlInv, FlagInv, JoinInv, DrainInv, StopInv, AlertInv, MutexInv, WaitCountInv;
    assert t in s.owner && s.owner[t].ByWorker? ==> RunOnce(s, t, s.owner[t].worker);
    forall v, w | 0 <= v < |s.workers| && 0 <= w < |s.workers| &&
              Carries(s.workers[v].pc, t) && Carries(s.workers[w].pc, t) ensures v == w {
      assert OwnsLoad(s, v) && OwnsLoad(s, w);
    }
  }

  /** n_idle is exact: nWaiting counts the workers inside the wait region. */
  lemma WaitingIsCounted(s: Pool)
    requires Reachable(s)
    ensures s.nWaiting == Count(s.workers, InWait) && 0 <= s.nWaiting <= |s.workers|
  {
    InvReachable(s);
    CountBound(s.workers, InWait);
  }

  /** A queued task is never left to sleepers alone: when some worker sleeps and
      no notification is pending, another worker is about to pop. */
  lemma NoLostWakeup(s: Pool, sleeper: WorkerId)
    requires Reachable(s) && At(s, sleeper, Asleep)
    ensures |s.q| <= |s.pending| + Count(s.workers, AboutToPop)
    ensures s.q != [] && s.pending == {} ==> exists w :: 0 <= w < |s.workers| && AboutToPop(s.workers[w].pc)
  {
    InvReachable(s);
    assert Drowsy(s.workers[sleeper].pc);
    if s.q != [] && s.pending == {} && !exists w :: 0 <= w < |s.workers| && AboutToPop(s.workers[w].pc) {
      CountNone(s.workers, AboutToPop);
      assert false;
    }
  }

  lemma {:induction false} CountNone(ws: seq<Worker>, f: Pc -> bool)
    requires forall i | 0 <= i < |ws| :: !f(ws[i].pc)
    ensures Count(ws, f) == 0
  {
    if ws != [] { CountNone(ws[..|ws| - 1], f); }
  }

  // ---------------------------------------------------------------- stop(true)

  /** After stop(true) has returned, every task whose push had returned before
      isDone was set has one owner.  If the pool had a thread, that owner is a
      worker, and the task has run exactly once unless the owner is a detached
      worker (one that a resize had flagged) still running it. */
  lemma StopTrueDrains(s: Pool, t: Task)
    requires Reachable(s) && s.isDone && !s.isStop && s.ctl.Idle?
    requires t in s.committed
    ensures s.threads == []
    ensures t in s.owner && t !in s.q
    ensures s.hadWorkers ==> s.owner[t].ByWorker? && s.owner[t].worker < |s.workers|
    ensures s.hadWorkers ==>
      var owner := s.workers[s.owner[t].worker];
      s.runs[t] == 1 || (s.runs[t] == 0 && Carries(owner.pc, t) && owner.flag)
    ensures s.hadWorkers && !s.shrunk ==> s.runs[t] == 1
  {
    InvReachable(s);
    hide WakeupInv, MutexInv, AlertInv, WaitCountInv, JoinInv;
    assert t in s.enqueued && t !in s.q && t in s.removed;
    if s.hadWorkers {
      var w := s.owner[t].worker;
      assert RunOnce(s, t, w);
    }
  }

  ghost predicate AllCommittedRan(s: Pool) {
    forall t | t in s.committed :: s.runs[t] == 1
  }

  /** A worker that a resize has flagged and detached is still busy with a committed task. */
  ghost predicate DetachedCarrier(s: Pool) {
    exists w :: 0 <= w < |s.workers| && s.workers[w].flag && Busy(s.workers[w].pc) && s.workers[w].pc.task in s.committed
  }

  predicate Busy(pc: Pc) {
    pc.PopHold? || pc.Running?
  }

  ghost predicate CommittedDiscarded(s: Pool) {
    exists t :: t in s.committed && t in s.owner && s.owner[t].Discarded?
  }

  /** When stop(true) has returned, every committed task has run exactly once if and
      only if no detached worker is still busy with one and none was discarded.
      A pool that had a thread discards none, a pool that was never shrunk has no
      detached worker, and a pool that never had a thread discards them all. */
  lemma StopTrueDrainsIff(s: Pool)
    requires Reachable(s) && s.isDone && !s.isStop && s.ctl.Idle?
    ensures AllCommittedRan(s) <==> !DetachedCarrier(s) && !CommittedDiscarded(s)
    ensures s.hadWorkers ==> !CommittedDiscarded(s)
    ensures !s.shrunk ==> !DetachedCarrier(s)
    ensures !s.hadWorkers && !s.shrunk ==> (CommittedDiscarded(s) <==> s.committed != {})
  {
    InvReachable(s);
    assert s.threads == [] && Drained(s);
    forall t | t in s.committed
      ensures t in s.owner
      ensures s.owner[t].Discarded? ==> s.runs[t] == 0
      ensures s.owner[t].ByWorker? ==> RunOnce(s, t, s.owner[t].worker)
    {
      CommittedRemoved(s, t);
    }
    forall w | 0 <= w < |s.workers| && Busy(s.workers[w].pc) ensures OwnsLoad(s, w) && s.workers[w].flag {}
    hide Inv, Reachable, Drained;
    if DetachedCarrier(s) {
      var w :| 0 <= w < |s.workers| && s.workers[w].flag && Busy(s.workers[w].pc) && s.workers[w].pc.task in s.committed;
      assert OwnsLoad(s, w);
    }
  }

  /** A committed task has been pushed, and is not queued any more. */
  lemma CommittedRemoved(s: Pool, t: Task)
    requires Inv(s) && t in s.committed && Drained(s)
    ensures t in s.owner
    ensures s.owner[t].Discarded? ==> s.runs[t] == 0
    ensures s.owner[t].ByWorker? ==> RunOnce(s, t, s.owner[t].worker)
  {
  }

  // ---------------------------------------------------------------- any stop

  /** At the moment a stop returns the queue is empty and every task ever
      enqueued has exactly one owner: it was claimed by a worker or discarded. */
  lemma StopLeavesNothing(s: Pool)
    requires Reachable(s) && CanControl(s) && s.ctl.FinalClear? && ApplyControl(s).ctl.Idle?
    ensures var s' := ApplyControl(s);
      && s'.q == []
      && s'.removed == s'.enqueued
      && (forall t :: t in s'.enqueued <==> t in s'.owner)
      && (forall i | 0 <= i < |s.threads| :: s'.workers[s.threads[i]].pc.Exited?)
  {
    InvReachable(s);
    hide WakeupInv, MutexInv, AlertInv, WaitCountInv, DrainInv, StopInv, OwnerInv, FlagInv;
    assert s.enqueued == s.removed + [];
  }

  /** After a stop's notify_all nobody sleeps, whatever spurious wakeups,
      pushes and calls follow. */
  lemma NobodySleepsAfterStop(s: Pool, w: WorkerId)
    requires Reachable(s) && s.alerted && w < |s.workers|
    ensures !s.workers[w].pc.Asleep?
  {
    InvReachable(s);
  }

  // ---------------------------------------------------------------- bounded work

  /** A flagged worker in this position takes at most one more task. */
  predicate MayClaim(pc: Pc) {
    AboutToPop(pc) || pc.Asleep?
  }

  /** The tasks a worker has taken so far. */
  ghost function TasksOf(s: Pool, w: WorkerId): set<Task> {
    OwnedBy(s.owner, w)
  }

  ghost function OwnedBy(owner: map<Task, Owner>, w: WorkerId): set<Task> {
    set t | t in owner && owner[t] == ByWorker(w)
  }

  lemma OwnedByGrows(owner: map<Task, Owner>, t: Task, who: Owner, w: WorkerId)
    requires t !in owner
    ensures |OwnedBy(owner[t := who], w)| == |OwnedBy(owner, w)| + if who == ByWorker(w) then 1 else 0
  {
    assert OwnedBy(owner[t := who], w) == OwnedBy(owner, w) + if who == ByWorker(w) then {t} else {};
  }

  ghost predicate ClaimsOneLess(s: Pool, s': Pool, w: WorkerId) {
    && w < |s.workers| && w < |s'.workers| && s'.workers[w].flag
    && |TasksOf(s', w)| + (if MayClaim(s'.workers[w].pc) then 1 else 0)
         <= |TasksOf(s, w)| + (if MayClaim(s.workers[w].pc) then 1 else 0)
  }

  lemma TasksOfWork(s: Pool, v: WorkerId, w: WorkerId)
    requires FifoInv(s) && CanWork(s, v)
    ensures |TasksOf(ApplyWork(s, v), w)| == |TasksOf(s, w)| + if TakesTask(s, v) && v == w then 1 else 0
  {
    WorkShape(s, v);
    hide ApplyWork, NextPc, NextMutex;
    if TakesTask(s, v) {
      FifoTake(s, ByWorker(v));
      hide FifoInv, OwnedBy;
      OwnedByGrows(s.owner, s.q[0], ByWorker(v), w);
    }
  }

  lemma ClaimWork(s: Pool, v: WorkerId, w: WorkerId)
    requires FifoInv(s) && CanWork(s, v) && w < |s.workers| && s.workers[w].flag
    ensures ClaimsOneLess(s, ApplyWork(s, v), w)
  {
    TasksOfWork(s, v, w);
    WorkShape(s, v);
    hide ApplyWork, FifoInv, TasksOf;
  }

  lemma ClaimControl(s: Pool, w: WorkerId)
    requires FifoInv(s) && CanControl(s) && w < |s.workers| && s.workers[w].flag
    ensures ClaimsOneLess(s, ApplyControl(s), w)
  {
    var s' := ApplyControl(s);
    ControlShape(s);
    if Discards(s) {
      FifoTake(s, Discarded);
      OwnedByGrows(s.owner, s.q[0], Discarded, w);
    }
    hide ApplyControl, FifoInv, OwnedBy;
  }

  lemma ClaimStep(s: Pool, step: Step, w: WorkerId)
    requires FifoInv(s) && Enabled(s, step) && w < |s.workers| && s.workers[w].flag
    ensures ClaimsOneLess(s, Apply(s, step), w)
  {
    hide ApplyWork, ApplyControl, FifoInv;
    match step
    case Work(v) => ClaimWork(s, v, w);
    case Control => ClaimControl(s, w);
    case _ => assert Apply(s, step).owner == s.owner;
  }

  /** Once a worker's stop flag is set it takes at most one more task, and none
      if it is past its last pop, however long the run goes on. */
  lemma {:induction false} AtMostOneMore(s: Pool, steps: seq<Step>, w: WorkerId)
    requires Inv(s) && ValidFrom(s, steps) && w < |s.workers| && s.workers[w].flag
    ensures |TasksOf(After(s, steps), w)| <= |TasksOf(s, w)| + if MayClaim(s.workers[w].pc) then 1 else 0
    decreases |steps|
  {
    if steps != [] {
      ClaimStep(s, steps[0], w);
      InvStep(s, steps[0]);
      hide Inv, Enabled, Apply;
      AtMostOneMore(Apply(s, steps[0]), steps[1..], w);
    }
  }

  /** The tasks that workers have taken so far. */
  ghost function Claimed(s: Pool): set<Task> {
    OwnedByWorkers(s.owner)
  }

  ghost function OwnedByWorkers(owner: map<Task, Owner>): set<Task> {
    set t | t in owner && owner[t].ByWorker?
  }

  lemma OwnedByWorkersGrows(owner: map<Task, Owner>, t: Task, who: Owner)
    requires t !in owner
    ensures |OwnedByWorkers(owner[t := who])| == |OwnedByWorkers(owner)| + if who.ByWorker? then 1 else 0
  {
    assert OwnedByWorkers(owner[t := who]) == OwnedByWorkers(owner) + if who.ByWorker? then {t} else {};
  }

  /** stop(false) has raised every flag. */
  ghost predicate AllFlagged(s: Pool) {
    s.isStop && !s.ctl.StopFlags?
  }

  ghost function ClaimBudget(s: Pool): nat {
    |Claimed(s)| + Count(s.workers, MayClaim)
  }

  lemma ClaimedWork(s: Pool, w: WorkerId)
    requires FifoInv(s) && CanWork(s, w)
    ensures |Claimed(ApplyWork(s, w))| == |Claimed(s)| + if TakesTask(s, w) then 1 else 0
  {
    WorkShape(s, w);
    hide ApplyWork;
    if TakesTask(s, w) {
      FifoTake(s, ByWorker(w));
      hide FifoInv, OwnedByWorkers;
      OwnedByWorkersGrows(s.owner, s.q[0], ByWorker(w));
    }
  }

  lemma BudgetWork(s: Pool, w: WorkerId)
    requires FifoInv(s) && CtlInv(s) && FlagInv(s) && AllFlagged(s) && CanWork(s, w)
    ensures ClaimBudget(ApplyWork(s, w)) <= ClaimBudget(s)
  {
    assert s.workers[w].flag;
    hide CtlInv, FlagInv;
    ClaimedWork(s, w);
    hide FifoInv;
    WorkShape(s, w);
    CountWork(s, w, MayClaim);
    hide ApplyWork;
  }

  lemma BudgetControl(s: Pool)
    requires FifoInv(s) && CtlInv(s) && AllFlagged(s) && CanControl(s)
    ensures ClaimBudget(ApplyControl(s)) <= ClaimBudget(s)
  {
    var s' := ApplyControl(s);
    CountControl(s, MayClaim);
    ControlShape(s);
    if Discards(s) {
      FifoTake(s, Discarded);
      OwnedByWorkersGrows(s.owner, s.q[0], Discarded);
    }
    hide ApplyControl, FifoInv, OwnedByWorkers;
  }

  lemma BudgetNotify(s: Pool, t: Task, woken: Option<WorkerId>)
    requires CanNotify(s, t, woken)
    ensures ClaimBudget(ApplyNotify(s, t, woken)) == ClaimBudget(s)
  {
    CountNotify(s, t, woken, MayClaim);
    assert ApplyNotify(s, t, woken).owner == s.owner;
  }

  lemma BudgetStep(s: Pool, step: Step)
    requires FifoInv(s) && CtlInv(s) && FlagInv(s) && AllFlagged(s) && Enabled(s, step)
    ensures AllFlagged(Apply(s, step)) && ClaimBudget(Apply(s, step)) <= ClaimBudget(s)
  {
    match step
    case Work(w) => BudgetWork(s, w);
    case Control => BudgetControl(s);
    case NotifyOne(t, woken) => BudgetNotify(s, t, woken);
    case _ => assert Apply(s, step).owner == s.owner && Apply(s, step).workers == s.workers;
    hide FifoInv, FlagInv, ClaimBudget;
  }

  /** After stop(false) has raised every flag, at most as many further tasks are
      started as there are workers still able to take one, whatever is pushed. */
  lemma {:induction false} StopFalseBounds(s: Pool, steps: seq<Step>)
    requires Inv(s) && AllFlagged(s) && ValidFrom(s, steps)
    ensures |Claimed(After(s, steps))| <= |Claimed(s)| + Count(s.workers, MayClaim) <= |Claimed(s)| + |s.workers|
    decreases |steps|
  {
    CountBound(s.workers, MayClaim);
    if steps != [] {
      BudgetStep(s, steps[0]);
      InvStep(s, steps[0]);
      hide Inv, Enabled, Apply, AllFlagged;
      StopFalseBounds(Apply(s, steps[0]), steps[1..]);
    }
  }

  // ---------------------------------------------------------------- termination

  /** A stop has announced itself to every worker: isDone is set, or every flag is. */
  ghost predicate Closing(s: Pool) {
    s.isDone || AllFlagged(s)
  }

  /** How far a worker is from its exit, not counting the tasks it may still take. */
  function Rank(v: Worker): nat {
    match v.pc
    case Exited => 0
    case Quitting => 1
    case CheckedNotDone => if v.flag then 2 else 7
    case CheckedEmpty => 3
    case InPred => 4
    case WantLock => 5
    case Signalled => 5
    case Asleep => 6
    case Popping => 6
    case CheckFlag => 7
    case Running(_) => 8
    case PopHold(_) => 9
  }

  ghost function Ranks(ws: seq<Worker>): nat {
    if ws == [] then 0 else Ranks(ws[..|ws| - 1]) + Rank(ws[|ws| - 1])
  }

  lemma {:induction false} RanksUpdate(ws: seq<Worker>, i: nat, v: Worker)
    requires i < |ws|
    ensures Ranks(ws[i := v]) + Rank(ws[i]) == Ranks(ws) + Rank(v)
  {
    var n := |ws| - 1;
    if i == n {
      assert ws[i := v][..n] == ws[..n];
    } else {
      assert ws[i := v][..n] == ws[..n][i := v];
      RanksUpdate(ws[..n], i, v);
    }
  }

  lemma {:induction false} RanksLower(ws: seq<Worker>, vs: seq<Worker>)
    requires |ws| == |vs| && forall i | 0 <= i < |ws| :: Rank(vs[i]) <= Rank(ws[i])
    ensures Ranks(vs) <= Ranks(ws)
  {
    if ws != [] { RanksLower(ws[..|ws| - 1], vs[..|vs| - 1]); }
  }

  /** How far the controller is from returning from the current stop. */
  function CtlRank(s: Pool): nat
    requires CtlOk(s)
  {
    var n := |s.threads|;
    match s.ctl
    case StopFlags(next) => 6 + n + n - next
    case StopClear => 5 + n
    case StopNotify => 4 + n
    case Joining(next) => 2 + n - next
    case FinalClear => 1
    case _ => 0
  }

  ghost function Measure(s: Pool): nat
    requires CtlOk(s)
  {
    6 * |s.q| + Ranks(s.workers) + |s.pending| + CtlRank(s)
  }

  /** A move of the pool itself: no new call to push, resize or stop. */
  predicate Internal(step: Step) {
    step.NotifyOne? || step.Work? || step.Control?
  }

  lemma RankDrops(s: Pool, w: WorkerId)
    requires CanWork(s, w) && (s.isDone || s.workers[w].flag)
    ensures Rank(s.workers[w].(pc := NextPc(s, w))) < Rank(s.workers[w]) + if TakesTask(s, w) then 6 else 0
  {
  }

  lemma MeasureWork(s: Pool, w: WorkerId)
    requires CtlInv(s) && FlagInv(s) && JoinInv(s) && Closing(s) && CanWork(s, w)
    ensures CtlOk(ApplyWork(s, w)) && Measure(ApplyWork(s, w)) < Measure(s)
  {
    assert s.isDone || s.workers[w].flag;
    hide CtlInv, FlagInv, JoinInv;
    WorkShape(s, w);
    RankDrops(s, w);
    RanksUpdate(s.workers, w, ApplyWork(s, w).workers[w]);
    hide ApplyWork, NextPc, NextMutex, Rank, CanWork;
  }

  lemma MeasureNotify(s: Pool, t: Task, woken: Option<WorkerId>)
    requires CtlInv(s) && CanNotify(s, t, woken)
    ensures CtlOk(ApplyNotify(s, t, woken)) && Measure(ApplyNotify(s, t, woken)) < Measure(s)
  {
    if woken.Some? {
      RanksUpdate(s.workers, woken.value, s.workers[woken.value].(pc := Signalled));
    }
  }

  lemma MeasureControl(s: Pool)
    requires CtlInv(s) && FlagInv(s) && JoinInv(s) && Closing(s) && CanControl(s)
    ensures CtlOk(ApplyControl(s)) && Measure(ApplyControl(s)) < Measure(s)
  {
    ControlShape(s);
    var s' := ApplyControl(s);
    CtlControl(s);
    forall i | 0 <= i < |s.workers| ensures Rank(s'.workers[i]) <= Rank(s.workers[i]) {}
    RanksLower(s.workers, s'.workers);
  }

  lemma MeasureStep(s: Pool, step: Step)
    requires Inv(s) && Closing(s) && Enabled(s, step) && Internal(step)
    ensures CtlOk(Apply(s, step)) && Closing(Apply(s, step)) && Measure(Apply(s, step)) < Measure(s)
  {
    match step
    case Work(w) => MeasureWork(s, w);
    case Control => MeasureControl(s);
    case NotifyOne(t, woken) => MeasureNotify(s, t, woken);
    hide Measure;
  }

  /** Once a stop has announced itself, a run without new calls is finite, with a
      bound known in advance; spurious wakeups do not prolong it. */
  lemma {:induction false} StopTerminates(s: Pool, steps: seq<Step>)
    requires Inv(s) && Closing(s) && ValidFrom(s, steps)
    requires forall i | 0 <= i < |steps| :: Internal(steps[i])
    ensures |steps| <= Measure(s)
    decreases |steps|
  {
    if steps != [] {
      MeasureStep(s, steps[0]);
      InvStep(s, steps[0]);
      hide Inv, Enabled, Apply, Measure, Closing;
      StopTerminates(Apply(s, steps[0]), steps[1..]);
    }
  }

  /** Nothing is left to do: the stop has returned, every push has returned and
      every worker, detached ones included, has exited. */
  ghost predicate Finished(s: Pool) {
    && s.ctl.Idle?
    && s.pending == {}
    && (forall w | 0 <= w < |s.workers| :: s.workers[w].pc.Exited?)
  }

  /** A closing pool never gets stuck before it is finished, and does not need a
      spurious wakeup to go on. */
  lemma ClosingPoolMoves(s: Pool) returns (step: Step)
    requires Inv(s) && Closing(s) && !Finished(s)
    ensures Internal(step) && Enabled(s, step)
    ensures step.Work? ==> !s.workers[step.w].pc.Asleep?
  {
    hide WaitCountInv, FifoInv, OwnerInv, WakeupInv, DrainInv, StopInv, FlagInv;
    if s.mutex.Some? {
      step := Work(s.mutex.value);
    } else if w :| 0 <= w < |s.workers| && !s.workers[w].pc.Exited? && !s.workers[w].pc.Asleep? {
      step := Work(w);
    } else if t :| t in s.pending {
      if w :| 0 <= w < |s.workers| && s.workers[w].pc.Asleep? {
        step := NotifyOne(t, Some(w));
      } else {
        step := NotifyOne(t, None);
      }
    } else {
      step := Control;
    }
  }
}
