/** What a call of stop or resize on the thread pool has done by the time it returns,
    stated from the state before the call: whatever the workers and the callers of
    push do in between, and however long the run goes on. */
module PoolCalls {
  import opened Wrappers
  import opened PoolMachine
  import opened PoolInvariants
  import opened PoolShutdown
  import opened PoolCases

  /** No call of resize or stop. */
  predicate NoCall(step: Step) {
    !step.CallResize? && !step.CallStop?
  }

  ghost predicate NoCalls(steps: seq<Step>) {
    forall i | 0 <= i < |steps| :: NoCall(steps[i])
  }

  lemma {:induction false} ReachRun(s: Pool, steps: seq<Step>)
    requires Reachable(s) && ValidFrom(s, steps)
    ensures Reachable(After(s, steps))
    decreases |steps|
  {
    hide Reachable, Enabled, Apply;
    if steps != [] {
      Go(s, steps[0], Apply(s, steps[0]));
      ReachRun(Apply(s, steps[0]), steps[1..]);
    }
  }

  // ---------------------------------------------------------------- stop

  ghost predicate AllExited(threads: seq<WorkerId>, x: Pool) {
    forall i | 0 <= i < |threads| :: threads[i] < |x.workers| && x.workers[threads[i]].pc.Exited?
  }

  /** Where a stop that was called in s has got to. */
  ghost predicate StopRun(s: Pool, x: Pool, isWait: bool) {
    && x.isDone == (s.isDone || isWait) && x.isStop == (s.isStop || !isWait)
    && x.committed == (if isWait then s.returned else s.committed)
    && x.hadWorkers == (if isWait then s.threads != [] else s.hadWorkers)
    && x.shrunk == s.shrunk
    && s.enqueued <= x.enqueued
    && (isWait ==> !x.ctl.StopFlags? && !x.ctl.StopClear?)
    && !x.ctl.Growing? && !x.ctl.Flagging? && !x.ctl.ShrinkNotify?
    && if x.ctl.Idle? then Returned(s, x) else x.threads == s.threads
  }

  /** The stop has returned: it has let go of its threads, which have exited, and
      nothing that was enqueued before the call is queued any more. */
  ghost predicate Returned(s: Pool, x: Pool) {
    x.threads == [] && AllExited(s.threads, x) && forall t | t in s.enqueued :: t in x.owner
  }

  lemma StopRunStart(s: Pool, isWait: bool)
    requires s.ctl.Idle? && !s.isStop && (isWait ==> !s.isDone)
    ensures StopRun(s, ApplyStop(s, isWait), isWait)
  {
  }

  lemma ReturnedWork(s: Pool, x: Pool, w: WorkerId)
    requires Returned(s, x) && CanWork(x, w)
    ensures Returned(s, ApplyWork(x, w))
  {
    WorkShape(x, w);
    hide ApplyWork, NextPc, NextMutex;
  }

  lemma StopRunWork(s: Pool, x: Pool, w: WorkerId, isWait: bool)
    requires StopRun(s, x, isWait) && CanWork(x, w)
    ensures StopRun(s, ApplyWork(x, w), isWait)
  {
    if x.ctl.Idle? { ReturnedWork(s, x, w); }
    WorkShape(x, w);
    assert ApplyWork(x, w).enqueued == x.enqueued;
    hide ApplyWork, Returned, NextPc, NextMutex;
  }

  lemma StopRunNotify(s: Pool, x: Pool, t: Task, woken: Option<WorkerId>, isWait: bool)
    requires StopRun(s, x, isWait) && CanNotify(x, t, woken)
    ensures StopRun(s, ApplyNotify(x, t, woken), isWait)
  {
    assert Returned(s, x) ==> Returned(s, ApplyNotify(x, t, woken));
    hide Returned;
  }

  /** The stop returns on an empty queue and with its threads joined. */
  lemma StopReturns(s: Pool, x: Pool, isWait: bool)
    requires Inv(x) && StopRun(s, x, isWait) && CanControl(x) && x.ctl.FinalClear? && x.q == []
    ensures Returned(s, ApplyControl(x))
  {
    hide MutexInv, WaitCountInv, OwnerInv, WakeupInv, FlagInv, DrainInv, StopInv, AlertInv;
    assert AllExited(s.threads, x);
    forall t | t in s.enqueued ensures t in x.owner {
      assert t in x.enqueued;
      assert x.enqueued == x.removed;
    }
  }

  lemma StopRunControl(s: Pool, x: Pool, isWait: bool)
    requires Inv(x) && StopRun(s, x, isWait) && CanControl(x)
    ensures StopRun(s, ApplyControl(x), isWait)
  {
    hide Inv, Returned;
    if x.ctl.FinalClear? && x.q == [] { StopReturns(s, x, isWait); }
    hide WakeAll, SetFlag, CtlOk;
  }

  lemma StopRunStep(s: Pool, x: Pool, step: Step, isWait: bool)
    requires Inv(x) && StopRun(s, x, isWait) && Enabled(x, step) && NoCall(step)
    ensures StopRun(s, Apply(x, step), isWait)
  {
    hide Inv, ApplyWork, ApplyControl, ApplyNotify, StopRun, CanWork, CanControl, CanNotify;
    match step
    case Enqueue(t) => StopRunEnqueue(s, x, t, isWait);
    case NotifyOne(t, woken) => StopRunNotify(s, x, t, woken, isWait);
    case Work(w) => StopRunWork(s, x, w, isWait);
    case Control => StopRunControl(s, x, isWait);
  }

  lemma StopRunEnqueue(s: Pool, x: Pool, t: Task, isWait: bool)
    requires StopRun(s, x, isWait)
    ensures StopRun(s, ApplyEnqueue(x, t), isWait)
  {
  }

  lemma {:induction false} StopRunAfter(s: Pool, x: Pool, steps: seq<Step>, isWait: bool)
    requires Inv(x) && StopRun(s, x, isWait) && ValidFrom(x, steps) && NoCalls(steps)
    ensures Inv(After(x, steps)) && StopRun(s, After(x, steps), isWait)
    decreases |steps|
  {
    hide Inv, StopRun, Enabled, Apply;
    if steps != [] {
      StopRunStep(s, x, steps[0], isWait);
      InvStep(x, steps[0]);
      StopRunAfter(s, Apply(x, steps[0]), steps[1..], isWait);
    }
  }

  /** stop(true), from the call: in every run after it without a further call of stop
      or resize, once the stop has returned isDone is set, `threads` is empty, the
      threads it had have exited, and every task enqueued before the call is out of
      the queue with one owner.  If the pool had a thread and was never shrunk,
      every task whose push had returned before the call has run exactly once. */
  lemma StopTrueFromCall(s: Pool, steps: seq<Step>)
    requires Reachable(s) && s.ctl.Idle? && !s.isDone && !s.isStop
    requires ValidFrom(Apply(s, CallStop(true)), steps) && NoCalls(steps)
    ensures var x := After(Apply(s, CallStop(true)), steps);
      && x.isDone && !x.isStop
      && (x.ctl.Idle? ==>
            && x.threads == [] && AllExited(s.threads, x)
            && (forall t | t in s.enqueued :: t in x.owner && t !in x.q)
            && (s.threads != [] && !s.shrunk ==> forall t | t in s.returned :: x.runs[t] == 1))
  {
    hide Inv, ApplyStop, Reachable;
    InvReachable(s);
    InvStop(s, true);
    StopRunStart(s, true);
    Go(s, CallStop(true), ApplyStop(s, true));
    hide Apply, Enabled;
    StopRunAfter(s, ApplyStop(s, true), steps, true);
    ReachRun(ApplyStop(s, true), steps);
    var x := After(ApplyStop(s, true), steps);
    EveryTaskAccountedFor(x);
    if x.ctl.Idle? && s.threads != [] && !s.shrunk {
      forall t | t in s.returned ensures x.runs[t] == 1 {
        StopTrueDrains(x, t);
      }
    }
  }

  /** stop(false), from the call, on a pool that is not stopped yet: in every run
      after it without a further call, once it has returned isStop is set, `threads`
      is empty, the threads it had have exited, and every task enqueued before the
      call is out of the queue: a worker claimed it and ran it once, or is a detached
      one still at it, or it was discarded and never runs. */
  lemma StopFalseFromCall(s: Pool, steps: seq<Step>)
    requires Reachable(s) && s.ctl.Idle? && !s.isStop
    requires ValidFrom(Apply(s, CallStop(false)), steps) && NoCalls(steps)
    ensures var x := After(Apply(s, CallStop(false)), steps);
      && x.isStop && x.isDone == s.isDone
      && (x.ctl.Idle? ==>
            && x.threads == [] && AllExited(s.threads, x)
            && forall t | t in s.enqueued ::
                 && t in x.owner && t !in x.q
                 && (x.owner[t].Discarded? ==> x.runs[t] == 0)
                 && (x.owner[t].ByWorker? ==> RunOnce(x, t, x.owner[t].worker)))
  {
    hide Inv, ApplyStop, Reachable;
    InvReachable(s);
    InvStop(s, false);
    StopRunStart(s, false);
    Go(s, CallStop(false), ApplyStop(s, false));
    hide Apply, Enabled;
    StopRunAfter(s, ApplyStop(s, false), steps, false);
    ReachRun(ApplyStop(s, false), steps);
    var x := After(ApplyStop(s, false), steps);
    EveryTaskAccountedFor(x);
    if x.ctl.Idle? {
      forall t | t in x.owner
        ensures x.owner[t].Discarded? ==> x.runs[t] == 0
        ensures x.owner[t].ByWorker? ==> RunOnce(x, t, x.owner[t].worker)
      {
        OwnerKnows(x, t);
      }
    }
  }

  lemma OwnerKnows(x: Pool, t: Task)
    requires Inv(x) && t in x.owner
    ensures x.owner[t].Discarded? ==> x.runs[t] == 0
    ensures x.owner[t].ByWorker? ==> RunOnce(x, t, x.owner[t].worker)
  {
    hide MutexInv, WaitCountInv, FifoInv, WakeupInv, CtlInv, FlagInv, JoinInv, DrainInv, StopInv, AlertInv;
  }

  // ---------------------------------------------------------------- a stop returns

  lemma ClosingStays(s: Pool, step: Step)
    requires Inv(s) && Closing(s) && Enabled(s, step) && Internal(step)
    ensures Inv(Apply(s, step)) && Closing(Apply(s, step))
    ensures Measure(Apply(s, step)) < Measure(s)
  {
    hide Inv, Apply, Enabled, Measure, Closing;
    MeasureStep(s, step);
    InvStep(s, step);
    InvCtlOk(s);
  }

  lemma InvCtlOk(s: Pool)
    requires Inv(s)
    ensures CtlOk(s)
  {
    hide MutexInv, WaitCountInv, FifoInv, OwnerInv, WakeupInv, FlagInv, JoinInv, DrainInv, StopInv, AlertInv;
  }

  /** A closing pool can run to its end by itself. */
  lemma {:induction false} Finish(s: Pool) returns (steps: seq<Step>)
    requires Inv(s) && CtlOk(s) && Closing(s)
    ensures ValidFrom(s, steps) && (forall i | 0 <= i < |steps| :: Internal(steps[i]))
    ensures Finished(After(s, steps))
    decreases Measure(s)
  {
    hide Inv, Closing, Enabled, Apply, Measure, Finished, CtlOk;
    if Finished(s) {
      assert ValidFrom(s, []) && After(s, []) == s;
      return [];
    }
    var step := ClosingPoolMoves(s);
    ClosingStays(s, step);
    InvCtlOk(Apply(s, step));
    var rest := Finish(Apply(s, step));
    steps := [step] + rest;
    assert steps[1..] == rest;
  }

  /** A stop(true) returns: no run of the pool by itself after the call is longer
      than a bound known in advance, and one of them ends with the stop returned,
      every push returned and every worker gone. */
  lemma StopTrueReturns(s: Pool) returns (steps: seq<Step>)
    requires Reachable(s) && s.ctl.Idle? && !s.isDone && !s.isStop
    ensures ValidFrom(Apply(s, CallStop(true)), steps) && (forall i | 0 <= i < |steps| :: Internal(steps[i]))
    ensures Finished(After(Apply(s, CallStop(true)), steps))
    ensures forall run | ValidFrom(Apply(s, CallStop(true)), run) && (forall i | 0 <= i < |run| :: Internal(run[i])) ::
              CtlOk(Apply(s, CallStop(true))) && |run| <= Measure(Apply(s, CallStop(true)))
  {
    hide Inv, Reachable, Enabled, Finished, Measure, ValidFrom, After;
    InvReachable(s);
    InvStop(s, true);
    StopRunStart(s, true);
    var x := ApplyStop(s, true);
    assert x.isDone;
    InvCtlOk(x);
    steps := Finish(x);
    forall run | ValidFrom(x, run) && (forall i | 0 <= i < |run| :: Internal(run[i])) ensures |run| <= Measure(x) {
      StopTerminates(x, run);
    }
  }

  /** The flag loop of stop(false) runs through by itself. */
  lemma {:induction false} RaiseAll(x: Pool) returns (steps: seq<Step>)
    requires Inv(x) && x.isStop && x.ctl.StopFlags?
    ensures ValidFrom(x, steps) && (forall i | 0 <= i < |steps| :: Internal(steps[i]))
    ensures Inv(After(x, steps)) && Closing(After(x, steps))
    decreases |x.threads| - x.ctl.next
  {
    hide Inv, ApplyControl, CanControl, CtlOk, ValidFrom, After;
    InvCtlOk(x);
    RaisesNext(x);
    var x' := ApplyControl(x);
    InvControl(x);
    if x'.ctl.StopFlags? {
      var rest := RaiseAll(x');
      ControlThen(x, rest);
      steps := [Control] + rest;
    } else {
      NoMore(x');
      ControlThen(x, []);
      steps := [Control] + [];
    }
  }

  lemma RaisesNext(x: Pool)
    requires CtlOk(x) && x.isStop && x.ctl.StopFlags?
    ensures CanControl(x) && x.ctl.next <= |x.threads|
    ensures var x' := ApplyControl(x);
      && x'.isStop && x'.threads == x.threads
      && x'.ctl == if x.ctl.next < |x.threads| then StopFlags(x.ctl.next + 1) else StopClear
  {
    hide SetFlag, WakeAll;
  }

  lemma ControlThen(x: Pool, rest: seq<Step>)
    requires CanControl(x) && ValidFrom(ApplyControl(x), rest)
    ensures ValidFrom(x, [Control] + rest) && After(x, [Control] + rest) == After(ApplyControl(x), rest)
  {
    hide CanControl, ApplyControl;
    assert ([Control] + rest)[1..] == rest;
  }

  lemma NoMore(x: Pool)
    ensures ValidFrom(x, []) && After(x, []) == x
  {
  }

  /** So does a stop(false). */
  lemma StopFalseReturns(s: Pool) returns (steps: seq<Step>)
    requires Reachable(s) && s.ctl.Idle? && !s.isStop
    ensures ValidFrom(Apply(s, CallStop(false)), steps) && (forall i | 0 <= i < |steps| :: Internal(steps[i]))
    ensures Finished(After(Apply(s, CallStop(false)), steps))
  {
    hide Inv, Reachable, Enabled, Finished, ValidFrom, After, Closing;
    InvReachable(s);
    InvStop(s, false);
    var x := ApplyStop(s, false);
    var raise := RaiseAll(x);
    InvCtlOk(After(x, raise));
    var rest := Finish(After(x, raise));
    RunAppend(x, raise, rest);
    return raise + rest;
  }

  lemma {:induction false} RunAppend(s: Pool, a: seq<Step>, b: seq<Step>)
    requires ValidFrom(s, a) && ValidFrom(After(s, a), b)
    ensures ValidFrom(s, a + b) && After(s, a + b) == After(After(s, a), b)
    decreases |a|
  {
    hide Enabled, Apply;
    if a == [] {
      assert a + b == b;
    } else {
      assert (a + b)[1..] == a[1..] + b;
      RunAppend(Apply(s, a[0]), a[1..], b);
    }
  }

  // ---------------------------------------------------------------- resize

  /** Where a resize(n) that was called in s, on a pool not stopped, has got to. */
  ghost predicate ResizeRun(s: Pool, x: Pool, n: nat) {
    && x.isDone == s.isDone && x.isStop == s.isStop
    && |s.workers| <= |x.workers|
    && x.shrunk == (s.shrunk || n < |s.threads|)
    && if n < |s.threads| then
         && (x.ctl.Flagging? || x.ctl.ShrinkNotify? || x.ctl.Idle?)
         && (x.ctl.Flagging? || x.ctl.ShrinkNotify? ==> x.ctl.target == n && x.threads == s.threads)
         && (x.ctl.Idle? ==> x.threads == s.threads[..n] && FlagsUp(s.threads[n..], x))
       else
         && (x.ctl.Growing? || x.ctl.Idle?)
         && (x.ctl.Growing? ==> x.ctl.target == n && |x.threads| <= n)
         && (x.ctl.Idle? ==> |x.threads| == n)
         && s.threads <= x.threads
  }

  ghost predicate FlagsUp(threads: seq<WorkerId>, x: Pool) {
    forall i | 0 <= i < |threads| :: threads[i] < |x.workers| && x.workers[threads[i]].flag
  }

  lemma ResizeRunStart(s: Pool, n: nat)
    requires s.ctl.Idle? && !s.isStop && !s.isDone
    ensures ResizeRun(s, ApplyResize(s, n), n)
  {
  }

  lemma ResizeRunWork(s: Pool, x: Pool, w: WorkerId, n: nat)
    requires ResizeRun(s, x, n) && CanWork(x, w)
    ensures ResizeRun(s, ApplyWork(x, w), n)
  {
    WorkShape(x, w);
    hide ApplyWork, NextPc, NextMutex;
  }

  lemma ResizeRunNotify(s: Pool, x: Pool, t: Task, woken: Option<WorkerId>, n: nat)
    requires ResizeRun(s, x, n) && CanNotify(x, t, woken)
    ensures ResizeRun(s, ApplyNotify(x, t, woken), n)
  {
  }

  lemma ShrinkReturns(s: Pool, x: Pool, n: nat)
    requires Inv(x) && ResizeRun(s, x, n) && n < |s.threads| && x.ctl.ShrinkNotify? && CanControl(x)
    requires !s.isStop && !s.isDone
    ensures FlagsUp(s.threads[n..], ApplyControl(x))
  {
    hide Inv, ApplyControl, CanControl;
    ControlShape(x);
    CutOffFlagged(x);
    assert forall i | 0 <= i < |s.threads[n..]| :: s.threads[n..][i] == x.threads[n + i];
  }

  lemma CutOffFlagged(x: Pool)
    requires Inv(x) && x.ctl.ShrinkNotify?
    ensures forall i | 0 <= i < |x.threads| ::
      x.threads[i] < |x.workers| && (i >= x.ctl.target ==> x.workers[x.threads[i]].flag)
  {
    hide MutexInv, WaitCountInv, FifoInv, OwnerInv, WakeupInv, JoinInv, DrainInv, StopInv, AlertInv;
  }

  lemma ResizeRunControl(s: Pool, x: Pool, n: nat)
    requires Inv(x) && ResizeRun(s, x, n) && CanControl(x) && !s.isStop && !s.isDone
    ensures ResizeRun(s, ApplyControl(x), n)
  {
    hide Inv, FlagsUp;
    InvCtlOk(x);
    if x.ctl.ShrinkNotify? { ShrinkReturns(s, x, n); }
    ControlShape(x);
    hide WakeAll, SetFlag;
  }

  lemma ResizeRunStep(s: Pool, x: Pool, step: Step, n: nat)
    requires Inv(x) && ResizeRun(s, x, n) && Enabled(x, step) && NoCall(step) && !s.isStop && !s.isDone
    ensures ResizeRun(s, Apply(x, step), n)
  {
    hide Inv, ApplyWork, ApplyControl, ApplyNotify, CanWork, CanControl, CanNotify, FlagsUp;
    match step
    case Enqueue(t) => ResizeRunEnqueue(s, x, t, n);
    case NotifyOne(t, woken) => ResizeRunNotify(s, x, t, woken, n);
    case Work(w) => ResizeRunWork(s, x, w, n);
    case Control => ResizeRunControl(s, x, n);
  }

  lemma ResizeRunEnqueue(s: Pool, x: Pool, t: Task, n: nat)
    requires ResizeRun(s, x, n)
    ensures ResizeRun(s, ApplyEnqueue(x, t), n)
  {
  }

  lemma {:induction false} ResizeRunAfter(s: Pool, x: Pool, steps: seq<Step>, n: nat)
    requires Inv(x) && ResizeRun(s, x, n) && ValidFrom(x, steps) && NoCalls(steps) && !s.isStop && !s.isDone
    ensures Inv(After(x, steps)) && ResizeRun(s, After(x, steps), n)
    decreases |steps|
  {
    hide Inv, ResizeRun, Enabled, Apply;
    if steps != [] {
      ResizeRunStep(s, x, steps[0], n);
      InvStep(x, steps[0]);
      ResizeRunAfter(s, Apply(x, steps[0]), steps[1..], n);
    }
  }

  /** resize(n), from the call, on any pool that is not stopped: in every run after it
      without a further call, once it has returned there are n threads, the first of
      which are those that were there before, with their flags down, and those that
      were cut off are flagged. */
  lemma ResizeFromCall(s: Pool, n: nat, steps: seq<Step>)
    requires Reachable(s) && s.ctl.Idle? && !s.isDone && !s.isStop
    requires ValidFrom(Apply(s, CallResize(n)), steps) && NoCalls(steps)
    ensures var x := After(Apply(s, CallResize(n)), steps);
      x.ctl.Idle? ==>
        && |x.threads| == n
        && (if n < |s.threads| then x.threads == s.threads[..n] else s.threads <= x.threads)
        && (forall i | 0 <= i < n :: x.threads[i] < |x.workers| && !x.workers[x.threads[i]].flag)
        && (n < |s.threads| ==> FlagsUp(s.threads[n..], x))
  {
    hide Inv, ApplyResize, Reachable;
    InvReachable(s);
    InvResize(s, n);
    ResizeRunStart(s, n);
    ResizeRunAfter(s, ApplyResize(s, n), steps, n);
    var x := After(ApplyResize(s, n), steps);
    hide Apply, Enabled, ValidFrom, After;
    if x.ctl.Idle? { FlagsDown(x); }
  }

  lemma FlagsDown(x: Pool)
    requires Inv(x) && x.ctl.Idle? && !x.isStop
    ensures forall i | 0 <= i < |x.threads| :: x.threads[i] < |x.workers| && !x.workers[x.threads[i]].flag
  {
    hide MutexInv, WaitCountInv, FifoInv, OwnerInv, WakeupInv, JoinInv, DrainInv, StopInv, AlertInv;
  }
}
