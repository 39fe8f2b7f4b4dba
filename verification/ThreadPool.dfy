/** The classes of include/ctpl_stl.h.  Each method is one atomic step of the
    code, performed on the object's fields, and is proved to be the step of the
    same name in PoolMachine, about whose runs the theorems are. */
module ThreadPool {
  import opened Wrappers
  import opened PoolMachine
  import opened PoolInvariants

  /** detail::Queue: every method runs under the queue's own mutex. */
  class Queue {
    var items: seq<Task>

    constructor ()
      ensures items == []
    {
      items := [];
    }

    method Push(value: Task) returns (ok: bool)
      modifies this
      ensures ok && items == old(items) + [value]
    {
      items := items + [value];
      return true;
    }

    method Pop() returns (ok: bool, v: Task)
      modifies this
      ensures ok == (old(items) != [])
      ensures ok ==> v == old(items)[0] && items == old(items)[1..]
      ensures !ok ==> items == old(items)
    {
      if items == [] {
        return false, 0;
      }
      v := items[0];
      items := items[1..];
      return true, v;
    }

    method Empty() returns (empty: bool)
      ensures empty <==> items == []
    {
      return items == [];
    }
  }

  /** What a pop by worker w changes: the queue and its history, and where w is. */
  lemma PopEffect(s: PoolMachine.Pool, w: WorkerId)
    requires CanWork(s, w) && (s.workers[w].pc.Popping? || s.workers[w].pc.InPred?)
    ensures var inPred := s.workers[w].pc.InPred?;
      ApplyWork(s, w) ==
        if s.q == [] then s.(workers := SetPc(s.workers, w, if inPred then CheckedEmpty else WantLock))
        else Take(s, ByWorker(w)).(workers := SetPc(s.workers, w, if inPred then PopHold(s.q[0]) else Running(s.q[0])))
  {
  }

  /** What a discard by the controller changes, or the end of clear_queue. */
  lemma DiscardEffect(s: PoolMachine.Pool)
    requires CanControl(s) && (s.ctl.StopClear? || s.ctl.FinalClear?)
    ensures ApplyControl(s) ==
      if s.q != [] then Take(s, Discarded)
      else if s.ctl.StopClear? then s.(ctl := StopNotify)
      else s.(ctl := Idle, threads := [])
  {
  }

  class Pool {
    const q: Queue
    var workers: seq<Worker>
    var threads: seq<WorkerId>
    var mutex: Option<WorkerId>
    var isDone: bool
    var isStop: bool
    var nWaiting: int
    var pending: set<Task>
    var returned: set<Task>
    var ctl: Ctl
    ghost var enqueued: seq<Task>
    ghost var removed: seq<Task>
    ghost var owner: map<Task, Owner>
    ghost var runs: multiset<Task>
    ghost var committed: set<Task>
    ghost var hadWorkers: bool
    ghost var shrunk: bool
    ghost var alerted: bool

    /** The abstract state the theorems speak about. */
    ghost function State(): PoolMachine.Pool
      reads this, q
    {
      PoolMachine.Pool(q.items, workers, threads, mutex, isDone, isStop, nWaiting, pending, returned, ctl,
                       enqueued, removed, owner, runs, committed, hadWorkers, shrunk, alerted)
    }

    /** The pool is in a state that the invariant of PoolInvariants allows. */
    ghost predicate Valid()
      reads this, q
    {
      Inv(State())
    }

    /** thread_pool() and init. */
    constructor ()
      ensures Valid() && State() == INIT && fresh(q)
    {
      q := new Queue();
      nWaiting, isStop, isDone := 0, false, false;
      workers, threads, mutex, ctl := [], [], None, Idle;
      pending, returned := {}, {};
      enqueued, removed, owner, runs := [], [], map[], multiset{};
      committed, hadWorkers, shrunk, alerted := {}, false, false, false;
      new;
      InvInit();
      hide Inv;
    }

    /** n_idle reads nWaiting without a lock: the number of workers inside the wait. */
    method NIdle() returns (n: int)
      requires Valid()
      ensures n == Count(workers, InWait)
    {
      return nWaiting;
    }

    // ------------------------------------------------------------ push

    /** The first half of push: the task is queued, nobody is told yet. */
    method PushEnqueue(t: Task)
      requires Valid() && Enabled(State(), Enqueue(t))
      modifies this, q
      ensures Valid() && State() == ApplyEnqueue(old(State()), t)
    {
      hide Inv;
      ghost var s := State();
      InvEnqueue(s, t);
      var _ := q.Push(t);
      enqueued := enqueued + [t];
      pending := pending + {t};
    }

    /** The second half of push: under the pool mutex it wakes a sleeper of the system's choice. */
    method PushNotify(t: Task, woken: Option<WorkerId>)
      requires Valid() && CanNotify(State(), t, woken)
      modifies this
      ensures Valid() && State() == ApplyNotify(old(State()), t, woken)
    {
      hide Inv, NoneAsleep, SetPc;
      ghost var s := State();
      InvNotify(s, t, woken);
      if woken.Some? {
        workers := SetPc(workers, woken.value, Signalled);
      }
      pending, returned := pending - {t}, returned + {t};
    }

    // ------------------------------------------------------------ workers

    /** A pop, with the history of who got the task. */
    method TakeFront(ghost who: Owner) returns (isPop: bool, f: Task)
      modifies q, this`removed, this`owner
      ensures isPop == (old(q.items) != [])
      ensures State() == if isPop then Take(old(State()), who) else old(State())
      ensures isPop ==> f == old(q.items)[0]
    {
      isPop, f := q.Pop();
      if isPop {
        removed, owner := removed + [f], owner[f := who];
      }
    }

    /** The worker looks for a task without holding the pool mutex. */
    method WorkerPop(w: WorkerId)
      requires Valid() && CanWork(State(), w) && workers[w].pc.Popping?
      modifies this, q
      ensures Valid() && State() == ApplyWork(old(State()), w)
    {
      hide Inv;
      ghost var s := State();
      PopEffect(s, w);
      InvWork(s, w);
      hide ApplyWork, CanWork, NextPc, NextMutex, TakesTask, SetPc;
      var isPop, f := TakeFront(ByWorker(w));
      if isPop {
        workers := SetPc(workers, w, Running(f));
      } else {
        workers := SetPc(workers, w, WantLock);
      }
    }

    /** The body of the worker's task returns. */
    method WorkerRun(w: WorkerId)
      requires Valid() && CanWork(State(), w) && workers[w].pc.Running?
      modifies this
      ensures Valid() && State() == ApplyWork(old(State()), w)
    {
      hide Inv;
      ghost var s := State();
      InvWork(s, w);
      runs := runs + multiset{workers[w].pc.task};
      workers := SetPc(workers, w, CheckFlag);
    }

    /** After a task the worker leaves if its stop flag is up, and looks for another one otherwise. */
    method WorkerCheckFlag(w: WorkerId)
      requires Valid() && CanWork(State(), w) && workers[w].pc.CheckFlag?
      modifies this
      ensures Valid() && State() == ApplyWork(old(State()), w)
    {
      hide Inv;
      ghost var s := State();
      InvWork(s, w);
      if workers[w].flag {
        workers := SetPc(workers, w, Exited);
      } else {
        workers := SetPc(workers, w, Popping);
      }
    }

    /** The worker takes the pool mutex and is counted as waiting. */
    method WorkerLock(w: WorkerId)
      requires Valid() && CanWork(State(), w) && workers[w].pc.WantLock?
      modifies this
      ensures Valid() && State() == ApplyWork(old(State()), w)
    {
      hide Inv;
      ghost var s := State();
      InvWork(s, w);
      mutex := Some(w);
      nWaiting := nWaiting + 1;
      workers := SetPc(workers, w, InPred);
    }

    /** A woken worker takes the mutex back inside cv.wait. */
    method WorkerRelock(w: WorkerId)
      requires Valid() && CanWork(State(), w) && workers[w].pc.Signalled?
      modifies this
      ensures Valid() && State() == ApplyWork(old(State()), w)
    {
      hide Inv;
      ghost var s := State();
      InvWork(s, w);
      mutex := Some(w);
      workers := SetPc(workers, w, InPred);
    }

    /** The wait predicate looks for a task while holding the pool mutex. */
    method WorkerPredPop(w: WorkerId)
      requires Valid() && CanWork(State(), w) && workers[w].pc.InPred?
      modifies this, q
      ensures Valid() && State() == ApplyWork(old(State()), w)
    {
      hide Inv;
      ghost var s := State();
      PopEffect(s, w);
      InvWork(s, w);
      hide ApplyWork, CanWork, NextPc, NextMutex, TakesTask, SetPc;
      var isPop, f := TakeFront(ByWorker(w));
      if isPop {
        workers := SetPc(workers, w, PopHold(f));
      } else {
        workers := SetPc(workers, w, CheckedEmpty);
      }
    }

    /** The wait is over with a task: the worker is no longer counted and releases the mutex. */
    method WorkerLeaveWait(w: WorkerId)
      requires Valid() && CanWork(State(), w) && workers[w].pc.PopHold?
      modifies this
      ensures Valid() && State() == ApplyWork(old(State()), w)
    {
      hide Inv;
      ghost var s := State();
      InvWork(s, w);
      nWaiting := nWaiting - 1;
      mutex := None;
      workers := SetPc(workers, w, Running(workers[w].pc.task));
    }

    /** The predicate reads isDone. */
    method WorkerPredDone(w: WorkerId)
      requires Valid() && CanWork(State(), w) && workers[w].pc.CheckedEmpty?
      modifies this
      ensures Valid() && State() == ApplyWork(old(State()), w)
    {
      hide Inv;
      ghost var s := State();
      InvWork(s, w);
      if isDone {
        workers := SetPc(workers, w, Quitting);
      } else {
        workers := SetPc(workers, w, CheckedNotDone);
      }
    }

    /** The predicate reads the stop flag; if it is down, the worker releases the mutex and sleeps. */
    method WorkerPredFlag(w: WorkerId)
      requires Valid() && CanWork(State(), w) && workers[w].pc.CheckedNotDone?
      modifies this
      ensures Valid() && State() == ApplyWork(old(State()), w)
    {
      hide Inv;
      ghost var s := State();
      InvWork(s, w);
      if workers[w].flag {
        workers := SetPc(workers, w, Quitting);
      } else {
        mutex := None;
        workers := SetPc(workers, w, Asleep);
      }
    }

    /** The wait is over without a task: the worker is no longer counted, releases the mutex and ends. */
    method WorkerQuit(w: WorkerId)
      requires Valid() && CanWork(State(), w) && workers[w].pc.Quitting?
      modifies this
      ensures Valid() && State() == ApplyWork(old(State()), w)
    {
      hide Inv;
      ghost var s := State();
      InvWork(s, w);
      nWaiting := nWaiting - 1;
      mutex := None;
      workers := SetPc(workers, w, Exited);
    }

    /** The condition variable wakes a sleeper by itself. */
    method WorkerSpuriousWakeup(w: WorkerId)
      requires Valid() && CanWork(State(), w) && workers[w].pc.Asleep?
      modifies this
      ensures Valid() && State() == ApplyWork(old(State()), w)
    {
      hide Inv;
      ghost var s := State();
      InvWork(s, w);
      workers := SetPc(workers, w, Signalled);
    }

    // ------------------------------------------------------------ resize

    method ResizeEntry(nThreads: nat)
      requires Valid() && ctl.Idle?
      modifies this
      ensures Valid() && State() == ApplyResize(old(State()), nThreads)
    {
      hide Inv;
      ghost var s := State();
      InvResize(s, nThreads);
      if !isStop && !isDone {
        var oldNThreads := |threads|;
        if oldNThreads <= nThreads {
          ctl := Growing(nThreads);
        } else {
          ctl := Flagging(oldNThreads, nThreads);
          shrunk := true;
        }
      }
    }

    /** One iteration of the growing loop: a new worker with its flag down. */
    method ResizeSpawn()
      requires Valid() && CanControl(State()) && ctl.Growing?
      modifies this
      ensures Valid() && State() == ApplyControl(old(State()))
    {
      hide Inv, SetFlag, WakeAll, Take;
      ghost var s := State();
      InvControl(s);
      if |threads| < ctl.target {
        threads := threads + [|workers|];
        workers := workers + [Worker(Popping, false)];
      } else {
        ctl := Idle;
      }
    }

    /** One iteration of the shrinking loop: the last worker's flag goes up and it is detached. */
    method ResizeFlag()
      requires Valid() && CanControl(State()) && ctl.Flagging?
      modifies this
      ensures Valid() && State() == ApplyControl(old(State()))
    {
      hide Inv, WakeAll, Take, SetFlag;
      ghost var s := State();
      InvControl(s);
      if ctl.next > ctl.target {
        var i := ctl.next - 1;
        RaiseFlag(threads[i]);
        ctl := Flagging(i, ctl.target);
      } else {
        ctl := ShrinkNotify(ctl.target);
      }
    }

    method RaiseFlag(w: WorkerId)
      requires w < |workers|
      modifies this`workers
      ensures workers == SetFlag(old(workers), w)
    {
      workers := workers[w := workers[w].(flag := true)];
    }

    /** cv.notify_all: every sleeper becomes runnable. */
    method NotifyAll()
      modifies this`workers
      ensures workers == WakeAll(old(workers))
    {
      var w := 0;
      while w < |workers|
        invariant w <= |workers| == |old(workers)|
        invariant forall v | 0 <= v < w :: workers[v] == WakeAll(old(workers))[v]
        invariant forall v | w <= v < |workers| :: workers[v] == old(workers)[v]
      {
        if workers[w].pc.Asleep? {
          workers := workers[w := workers[w].(pc := Signalled)];
        }
        w := w + 1;
      }
    }

    method ResizeNotify()
      requires Valid() && CanControl(State()) && ctl.ShrinkNotify?
      modifies this
      ensures Valid() && State() == ApplyControl(old(State()))
    {
      hide Inv;
      ghost var s := State();
      InvControl(s);
      NotifyAll();
      threads := threads[..ctl.target];
      ctl := Idle;
    }

    // ------------------------------------------------------------ stop

    method StopEntry(isWait: bool)
      requires Valid() && ctl.Idle?
      modifies this
      ensures Valid() && State() == ApplyStop(old(State()), isWait)
    {
      hide Inv;
      ghost var s := State();
      InvStop(s, isWait);
      if !isWait {
        if isStop {
          return;
        }
        isStop, ctl := true, StopFlags(0);
      } else {
        if isDone || isStop {
          return;
        }
        isDone, ctl := true, StopNotify;
        committed, hadWorkers := returned, threads != [];
      }
    }

    /** One iteration of the loop that commands the threads to stop. */
    method StopFlag()
      requires Valid() && CanControl(State()) && ctl.StopFlags?
      modifies this
      ensures Valid() && State() == ApplyControl(old(State()))
    {
      hide Inv, WakeAll, Take, SetFlag;
      ghost var s := State();
      InvControl(s);
      if ctl.next < |threads| {
        RaiseFlag(threads[ctl.next]);
        ctl := StopFlags(ctl.next + 1);
      } else {
        ctl := StopClear;
      }
    }

    /** One iteration of clear_queue, first or last; after the last stop returns. */
    method StopDiscard()
      requires Valid() && CanControl(State()) && (ctl.StopClear? || ctl.FinalClear?)
      modifies this, q
      ensures Valid() && State() == ApplyControl(old(State()))
    {
      hide Inv;
      ghost var s := State();
      DiscardEffect(s);
      InvControl(s);
      hide ApplyControl, CanControl, NextCtl;
      hide WakeAll, SetFlag, CtlOk;
      var popped, _ := TakeFront(Discarded);
      if popped {
      } else if ctl.StopClear? {
        ctl := StopNotify;
      } else {
        threads := [];
        ctl := Idle;
      }
    }

    method StopNotifyAll()
      requires Valid() && CanControl(State()) && ctl.StopNotify?
      modifies this
      ensures Valid() && State() == ApplyControl(old(State()))
    {
      hide Inv;
      ghost var s := State();
      InvControl(s);
      NotifyAll();
      alerted := true;
      ctl := Joining(0);
    }

    /** One iteration of the join loop; the thread has ended. */
    method StopJoin()
      requires Valid() && CanControl(State()) && ctl.Joining?
      modifies this
      ensures Valid() && State() == ApplyControl(old(State()))
    {
      hide Inv;
      ghost var s := State();
      InvControl(s);
      if ctl.next < |threads| {
        ctl := Joining(ctl.next + 1);
      } else {
        ctl := FinalClear;
      }
    }

    /** clear_queue as the loop it is, when nothing else runs meanwhile: the
        discards follow the queue's order and reach every queued task, and each is
        a step of the machine. */
    method ClearQueue()
      requires Valid() && (ctl.StopClear? || ctl.FinalClear?)
      modifies q, this`removed, this`owner
      ensures Valid() && q.items == []
      ensures removed == old(removed) + old(q.items)
      ensures owner == GivenUp(old(owner), old(q.items))
    {
      hide *;
      ghost var all, gone := q.items, [];
      GivenUpNone(owner);
      if q.items != [] {
        GivenUpNext(owner, gone, q.items[0]);
        gone := gone + [q.items[0]];
      }
      var popped := Discard();
      while popped
        invariant Valid() && (!popped ==> q.items == [])
        invariant gone + q.items == all
        invariant removed == old(removed) + gone
        invariant owner == GivenUp(old(owner), gone)
        decreases |q.items|, popped
      {
        if q.items != [] {
          GivenUpNext(old(owner), gone, q.items[0]);
          gone := gone + [q.items[0]];
        }
        popped := Discard();
      }
      assert gone == all;
    }

    /** One pop of clear_queue. */
    method Discard() returns (popped: bool)
      requires Valid() && (ctl.StopClear? || ctl.FinalClear?)
      modifies q, this`removed, this`owner
      ensures Valid() && popped == (old(q.items) != [])
      ensures popped ==> q.items == old(q.items)[1..] && removed == old(removed) + [old(q.items)[0]] &&
                         owner == old(owner)[old(q.items)[0] := Discarded]
      ensures !popped ==> q.items == [] && removed == old(removed) && owner == old(owner)
    {
      hide Inv;
      ghost var s := State();
      if s.q != [] {
        DiscardEnabled(s);
        DiscardEffect(s);
        InvControl(s);
      }
      hide ApplyControl, CanControl, NextCtl;
      var f;
      popped, f := TakeFront(Discarded);
    }
  }

  /** The owners once the tasks have been discarded one after the other. */
  ghost function GivenUp(owner: map<Task, Owner>, gone: seq<Task>): map<Task, Owner> {
    if gone == [] then owner else GivenUp(owner, gone[..|gone| - 1])[gone[|gone| - 1] := Discarded]
  }

  lemma {:induction false} GivenUpNone(owner: map<Task, Owner>)
    ensures GivenUp(owner, []) == owner
  {
  }

  lemma {:induction false} GivenUpNext(owner: map<Task, Owner>, gone: seq<Task>, t: Task)
    ensures GivenUp(owner, gone + [t]) == GivenUp(owner, gone)[t := Discarded]
  {
  }

  lemma DiscardEnabled(s: PoolMachine.Pool)
    requires Inv(s) && (s.ctl.StopClear? || s.ctl.FinalClear?)
    ensures CanControl(s)
  {
  }
}
