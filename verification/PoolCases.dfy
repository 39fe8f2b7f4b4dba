/** Runs of the thread pool that reach the states on which draining depends: a pool
    that has grown, a pool of size zero that discards its tasks, and a stop(true)
    that returns while a detached worker still runs a task. */
module PoolCases {
  import opened Wrappers
  import opened PoolMachine
  import opened PoolInvariants
  import opened PoolShutdown

  lemma {:induction false} RunStep(s: Pool, steps: seq<Step>, step: Step)
    requires ValidFrom(s, steps) && Enabled(After(s, steps), step)
    ensures ValidFrom(s, steps + [step]) && After(s, steps + [step]) == Apply(After(s, steps), step)
    decreases |steps|
  {
    hide Enabled, Apply;
    if steps == [] {
      assert [step][1..] == [];
      assert ValidFrom(Apply(s, step), []);
    } else {
      assert (steps + [step])[1..] == steps[1..] + [step];
      RunStep(Apply(s, steps[0]), steps[1..], step);
    }
  }

  /** A step from a reachable state leads to a reachable state. */
  lemma Go(s: Pool, step: Step, s': Pool)
    requires Reachable(s) && Enabled(s, step) && Apply(s, step) == s'
    ensures Reachable(s')
  {
    hide Enabled, Apply;
    var steps :| ValidFrom(INIT, steps) && After(INIT, steps) == s;
    RunStep(INIT, steps, step);
  }

  lemma InitReachable()
    ensures Reachable(INIT)
  {
    assert ValidFrom(INIT, []) && After(INIT, []) == INIT;
  }

  // ---------------------------------------------------------------- growing

  /** The pool that resize(n) has grown to k threads so far. */
  ghost function Grown(k: nat, ctl: Ctl): Pool {
    INIT.(workers := seq(k, i => Worker(Popping, false)), threads := seq(k, i => i), ctl := ctl)
  }

  lemma {:induction false} GrowLoop(n: nat, k: nat)
    requires k <= n && Reachable(Grown(k, Growing(n)))
    ensures Reachable(Grown(n, Idle))
    decreases n - k
  {
    hide Reachable;
    var s := Grown(k, Growing(n));
    assert CanControl(s);
    if k == n {
      assert ApplyControl(s) == Grown(n, Idle);
      Go(s, Control, Grown(n, Idle));
    } else {
      assert ApplyControl(s) == Grown(k + 1, Growing(n));
      Go(s, Control, Grown(k + 1, Growing(n)));
      GrowLoop(n, k + 1);
    }
  }

  /** thread_pool(n) reaches the idle pool of n threads. */
  lemma GrownReachable(n: nat)
    ensures Reachable(Grown(n, Idle))
  {
    hide Reachable;
    InitReachable();
    assert ApplyResize(INIT, n) == Grown(0, Growing(n));
    Go(INIT, CallResize(n), Grown(0, Growing(n)));
    GrowLoop(n, 0);
  }

  // ---------------------------------------------------------------- a pool of size zero

  /** A pool without threads throws away what it was given before stop(true). */
  lemma ZeroSizePoolDiscards(t: Task) returns (s: Pool)
    ensures Reachable(s) && s.isDone && !s.isStop && s.ctl.Idle? && !s.shrunk && !s.hadWorkers
    ensures s.committed == {t} && s.runs[t] == 0 && CommittedDiscarded(s)
  {
    hide Reachable;
    InitReachable();
    var s1 := INIT.(q := [t], enqueued := [t], pending := {t});
    Go(INIT, Enqueue(t), s1);
    var s2 := s1.(pending := {}, returned := {t});
    Go(s1, NotifyOne(t, None), s2);
    var s3 := s2.(isDone := true, ctl := StopNotify, committed := {t});
    Go(s2, CallStop(true), s3);
    var s4 := s3.(ctl := Joining(0), alerted := true);
    assert WakeAll([]) == [];
    Go(s3, Control, s4);
    var s5 := s4.(ctl := FinalClear);
    Go(s4, Control, s5);
    var s6 := s5.(q := [], removed := [t], owner := map[t := Discarded]);
    Go(s5, Control, s6);
    s := s6.(ctl := Idle);
    Go(s6, Control, s);
  }

  // ---------------------------------------------------------------- a detached worker

  /** Worker 1 of two runs task t, worker 0 looks for one. */
  ghost function OneBusy(t: Task): Pool {
    INIT.(workers := [Worker(Popping, false), Worker(Running(t), false)], threads := [0, 1],
          enqueued := [t], removed := [t], returned := {t}, owner := map[t := ByWorker(1)])
  }

  lemma OneBusyReachable(t: Task)
    ensures Reachable(OneBusy(t))
  {
    hide Reachable;
    GrownReachable(2);
    var s := Grown(2, Idle);
    assert s.workers == [Worker(Popping, false), Worker(Popping, false)] && s.threads == [0, 1];
    var s1 := s.(q := [t], enqueued := [t], pending := {t});
    Go(s, Enqueue(t), s1);
    var s2 := s1.(pending := {}, returned := {t});
    Go(s1, NotifyOne(t, None), s2);
    Go(s2, Work(1), OneBusy(t));
  }

  /** Worker 1 has been flagged and detached by resize(1). */
  ghost function Detached(t: Task): Pool {
    OneBusy(t).(workers := [Worker(Popping, false), Worker(Running(t), true)], threads := [0], shrunk := true)
  }

  lemma DetachedReachable(t: Task)
    ensures Reachable(Detached(t))
  {
    hide Reachable;
    OneBusyReachable(t);
    var s := OneBusy(t);
    var s1 := s.(ctl := Flagging(2, 1), shrunk := true);
    Go(s, CallResize(1), s1);
    var s2 := s1.(ctl := Flagging(1, 1), workers := [Worker(Popping, false), Worker(Running(t), true)]);
    Go(s1, Control, s2);
    var s3 := s2.(ctl := ShrinkNotify(1));
    Go(s2, Control, s3);
    assert WakeAll(s3.workers) == s3.workers && s3.threads[..1] == [0];
    Go(s3, Control, Detached(t));
  }

  /** stop(true) is joining, with worker 0 at a program counter. */
  ghost function Joins(t: Task, pc: Pc, mutex: Option<WorkerId>, nWaiting: int): Pool {
    Detached(t).(isDone := true, committed := {t}, hadWorkers := true, alerted := true, ctl := Joining(0),
                 workers := [Worker(pc, false), Worker(Running(t), true)], mutex := mutex, nWaiting := nWaiting)
  }

  lemma JoinsReachable(t: Task)
    ensures Reachable(Joins(t, Exited, None, 0))
  {
    hide Reachable;
    DetachedReachable(t);
    var s := Detached(t);
    var s1 := s.(isDone := true, committed := {t}, hadWorkers := true, ctl := StopNotify);
    Go(s, CallStop(true), s1);
    assert WakeAll(s1.workers) == s1.workers;
    Go(s1, Control, Joins(t, Popping, None, 0));
    Go(Joins(t, Popping, None, 0), Work(0), Joins(t, WantLock, None, 0));
    Go(Joins(t, WantLock, None, 0), Work(0), Joins(t, InPred, Some(0), 1));
    Go(Joins(t, InPred, Some(0), 1), Work(0), Joins(t, CheckedEmpty, Some(0), 1));
    Go(Joins(t, CheckedEmpty, Some(0), 1), Work(0), Joins(t, Quitting, Some(0), 1));
    Go(Joins(t, Quitting, Some(0), 1), Work(0), Joins(t, Exited, None, 0));
  }

  /** After a shrink stop(true) may return while a detached worker still runs a task
      whose push had returned. */
  lemma DetachedWorkerOutlivesStop(t: Task) returns (s: Pool)
    ensures Reachable(s) && s.isDone && !s.isStop && s.ctl.Idle? && s.shrunk && s.hadWorkers
    ensures s.committed == {t} && s.runs[t] == 0 && DetachedCarrier(s)
    ensures |s.workers| == 2 && s.workers[1] == Worker(Running(t), true)
  {
    hide Reachable;
    JoinsReachable(t);
    var s0 := Joins(t, Exited, None, 0);
    var s1 := s0.(ctl := Joining(1));
    Go(s0, Control, s1);
    var s2 := s1.(ctl := FinalClear);
    Go(s1, Control, s2);
    s := s2.(ctl := Idle, threads := []);
    Go(s2, Control, s);
    assert s.workers[1] == Worker(Running(t), true) && Busy(s.workers[1].pc);
  }
}
