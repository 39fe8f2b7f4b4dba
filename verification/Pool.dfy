/** The thread pool of include/ctpl_stl.h as a machine of atomic steps.

    A step is one access to shared state: one locked queue operation, one read
    of `isDone` or of a stop flag, one acquisition of the pool mutex, one
    notification.  A run is any interleaving of such steps by any number of
    workers, callers of `push`, and one controller (`resize` and `stop`). */
module PoolMachine {
  import opened Wrappers

  /** A task is the heap-allocated function object of one call to `push`. */
  type Task = nat

  /** Workers are numbered in the order in which they are spawned. */
  type WorkerId = nat

  /** Where a worker is inside the lambda of `set_thread`. */
  datatype Pc =
    | Popping              // about to call q.pop outside the pool mutex
    | Running(task: Task)  // owns a task whose body has not returned yet
    | CheckFlag            // the body has returned, the stop flag is read next
    | WantLock             // the queue was empty, wants the pool mutex
    | InPred               // holds the mutex, the wait predicate pops next
    | PopHold(task: Task)  // holds the mutex, the predicate's pop succeeded
    | CheckedEmpty         // holds the mutex, the predicate's pop failed
    | CheckedNotDone       // holds the mutex, isDone was read as false
    | Quitting             // holds the mutex, the predicate is true without a task
    | Asleep               // blocked on the condition variable, mutex released
    | Signalled            // woken, wants the mutex back
    | Exited

  datatype Worker = Worker(pc: Pc, flag: bool)

  /** What the thread that calls `resize` and `stop` is doing. */
  datatype Ctl =
    | Idle
    | Growing(target: nat)
    | Flagging(next: nat, target: nat)  // positions next.. are flagged and detached
    | ShrinkNotify(target: nat)
    | StopFlags(next: nat)              // positions ..next are flagged
    | StopClear
    | StopNotify
    | Joining(next: nat)                // positions ..next are joined
    | FinalClear

  datatype Owner = ByWorker(worker: WorkerId) | Discarded

  datatype Pool = Pool(
    q: seq<Task>,
    workers: seq<Worker>,       // every worker ever spawned, detached ones included
    threads: seq<WorkerId>,     // the vector `threads`: position to worker
    mutex: Option<WorkerId>,    // the worker that holds the pool mutex between steps
    isDone: bool,
    isStop: bool,
    nWaiting: int,
    pending: set<Task>,         // enqueued, notification still to come
    returned: set<Task>,        // push has notified and returned
    ctl: Ctl,
    // History of the run, read by no step.
    enqueued: seq<Task>,
    removed: seq<Task>,
    owner: map<Task, Owner>,
    runs: multiset<Task>,       // one element for each return of a task's body
    committed: set<Task>,       // `returned` when stop(true) set isDone
    hadWorkers: bool,           // whether `threads` was nonempty at that moment
    shrunk: bool,               // some resize has started to shrink the pool
    alerted: bool)              // a stop has performed its notify_all

  /** The pool right after `init`. */
  const INIT: Pool :=
    Pool([], [], [], None, false, false, 0, {}, {}, Idle,
         [], [], map[], multiset{}, {}, false, false, false)

  /** Who moves next.  A worker's program counter, and the controller's,
      determine what the move is; only calls have a choice. */
  datatype Step =
    | Enqueue(t: Task)                                // push: the locked q.push
    | NotifyOne(t: Task, woken: Option<WorkerId>)     // push: lock, notify_one, return
    | Work(w: WorkerId)
    | CallResize(n: nat)
    | CallStop(isWait: bool)
    | Control

  /** The worker holds the pool mutex. */
  predicate Holds(pc: Pc) {
    pc.InPred? || pc.PopHold? || pc.CheckedEmpty? || pc.CheckedNotDone? || pc.Quitting?
  }

  /** The worker is inside the wait region that nWaiting counts. */
  predicate InWait(pc: Pc) {
    Holds(pc) || pc.Asleep? || pc.Signalled?
  }

  predicate At(s: Pool, w: WorkerId, pc: Pc) {
    w < |s.workers| && s.workers[w].pc == pc
  }

  predicate NoneAsleep(ws: seq<Worker>) {
    forall v | 0 <= v < |ws| :: !ws[v].pc.Asleep?
  }

  function WakeAll(ws: seq<Worker>): seq<Worker> {
    seq(|ws|, i requires 0 <= i < |ws| => if ws[i].pc.Asleep? then ws[i].(pc := Signalled) else ws[i])
  }

  function SetPc(ws: seq<Worker>, w: WorkerId, pc: Pc): seq<Worker>
    requires w < |ws|
  {
    ws[w := ws[w].(pc := pc)]
  }

  function SetFlag(ws: seq<Worker>, w: WorkerId): seq<Worker>
    requires w < |ws|
  {
    ws[w := ws[w].(flag := true)]
  }

  /** q.pop on a nonempty queue: the front task gets its owner. */
  function Take(s: Pool, who: Owner): Pool
    requires s.q != []
  {
    s.(q := s.q[1..], removed := s.removed + [s.q[0]], owner := s.owner[s.q[0] := who])
  }

  /** The controller's loop counters are in range and `threads` names real
      workers; true in every reachable state. */
  predicate CtlOk(s: Pool) {
    && (forall i | 0 <= i < |s.threads| :: s.threads[i] < |s.workers|)
    && (s.ctl.Flagging? ==> s.ctl.target <= s.ctl.next <= |s.threads|)
    && (s.ctl.ShrinkNotify? ==> s.ctl.target <= |s.threads|)
    && (s.ctl.StopFlags? ==> s.ctl.next <= |s.threads|)
    && (s.ctl.Joining? ==> s.ctl.next <= |s.threads|)
  }

  /** The worker can move: it has not exited, and waits for the mutex only where
      the code blocks on it.  A sleeper moves by a spurious wakeup. */
  predicate CanWork(s: Pool, w: WorkerId) {
    && w < |s.workers|
    && !s.workers[w].pc.Exited?
    && (s.workers[w].pc.WantLock? || s.workers[w].pc.Signalled? ==> s.mutex.None?)
  }

  /** The controller can move: notify_all needs the mutex, join needs the thread's end. */
  predicate CanControl(s: Pool) {
    && CtlOk(s)
    && !s.ctl.Idle?
    && (s.ctl.ShrinkNotify? || s.ctl.StopNotify? ==> s.mutex.None?)
    && (s.ctl.Joining? && s.ctl.next < |s.threads| ==> s.workers[s.threads[s.ctl.next]].pc.Exited?)
  }

  /** notify_one wakes one sleeper, any one, if there is one. */
  predicate CanNotify(s: Pool, t: Task, woken: Option<WorkerId>) {
    && t in s.pending
    && s.mutex.None?
    && (if woken.Some? then At(s, woken.value, Asleep) else NoneAsleep(s.workers))
  }

  predicate Enabled(s: Pool, step: Step) {
    match step
    case Enqueue(t) => t !in s.pending && t !in s.returned
    case NotifyOne(t, woken) => CanNotify(s, t, woken)
    case Work(w) => CanWork(s, w)
    case CallResize(n) => s.ctl.Idle?
    case CallStop(isWait) => s.ctl.Idle?
    case Control => CanControl(s)
  }

  /** The worker's next position in the loop of `set_thread`. */
  function NextPc(s: Pool, w: WorkerId): Pc
    requires CanWork(s, w)
  {
    match s.workers[w].pc
    case Popping => if s.q == [] then WantLock else Running(s.q[0])
    case Running(_) => CheckFlag
    case CheckFlag => if s.workers[w].flag then Exited else Popping
    case WantLock => InPred
    case InPred => if s.q == [] then CheckedEmpty else PopHold(s.q[0])
    case PopHold(t) => Running(t)
    case CheckedEmpty => if s.isDone then Quitting else CheckedNotDone
    case CheckedNotDone => if s.workers[w].flag then Quitting else Asleep
    case Quitting => Exited
    case Asleep => Signalled
    case Signalled => InPred
  }

  /** Who holds the pool mutex after the worker's move. */
  function NextMutex(s: Pool, w: WorkerId): Option<WorkerId>
    requires CanWork(s, w)
  {
    match s.workers[w].pc
    case WantLock => Some(w)                                        // unique_lock lock
    case Signalled => Some(w)                                       // wait takes it back
    case PopHold(_) => None                                         // end of the loop body
    case Quitting => None                                           // return
    case CheckedNotDone => if s.workers[w].flag then s.mutex else None  // wait releases it
    case _ => s.mutex
  }

  predicate TakesTask(s: Pool, w: WorkerId)
    requires w < |s.workers|
  {
    s.q != [] && (s.workers[w].pc.Popping? || s.workers[w].pc.InPred?)
  }

  /** One move of a worker. */
  function ApplyWork(s: Pool, w: WorkerId): Pool
    requires CanWork(s, w)
  {
    var pc := s.workers[w].pc;
    var taken := if TakesTask(s, w) then Take(s, ByWorker(w)) else s;
    taken.(workers := SetPc(s.workers, w, NextPc(s, w)),
           mutex := NextMutex(s, w),
           nWaiting := if pc.WantLock? then s.nWaiting + 1
                       else if pc.PopHold? || pc.Quitting? then s.nWaiting - 1
                       else s.nWaiting,
           runs := if pc.Running? then s.runs + multiset{pc.task} else s.runs)
  }

  /** The controller's next position in the loops of `resize` and `stop`. */
  function NextCtl(s: Pool): Ctl
    requires CanControl(s)
  {
    match s.ctl
    case Growing(target) => if |s.threads| < target then s.ctl else Idle
    case Flagging(next, target) => if next > target then Flagging(next - 1, target) else ShrinkNotify(target)
    case ShrinkNotify(_) => Idle
    case StopFlags(next) => if next < |s.threads| then StopFlags(next + 1) else StopClear
    case StopClear => if s.q != [] then StopClear else StopNotify
    case StopNotify => Joining(0)
    case Joining(next) => if next < |s.threads| then Joining(next + 1) else FinalClear
    case FinalClear => if s.q != [] then FinalClear else Idle
  }

  predicate Spawns(s: Pool) {
    s.ctl.Growing? && |s.threads| < s.ctl.target
  }

  /** The position in `threads` whose flag the controller raises next. */
  function Flagged(s: Pool): Option<nat> {
    if s.ctl.Flagging? && s.ctl.next > s.ctl.target then Some(s.ctl.next - 1)
    else if s.ctl.StopFlags? && s.ctl.next < |s.threads| then Some(s.ctl.next)
    else None
  }

  predicate Discards(s: Pool) {
    s.q != [] && (s.ctl.StopClear? || s.ctl.FinalClear?)
  }

  /** One move of the controller. */
  function ApplyControl(s: Pool): Pool
    requires CanControl(s)
  {
    var taken := if Discards(s) then Take(s, Discarded) else s;
    taken.(ctl := NextCtl(s),
           workers := if Spawns(s) then s.workers + [Worker(Popping, false)]
                      else if Flagged(s).Some? then SetFlag(s.workers, s.threads[Flagged(s).value])
                      else if s.ctl.ShrinkNotify? || s.ctl.StopNotify? then WakeAll(s.workers)
                      else s.workers,
           threads := if Spawns(s) then s.threads + [|s.workers|]
                      else if s.ctl.ShrinkNotify? then s.threads[..s.ctl.target]
                      else if s.ctl.FinalClear? && s.q == [] then []
                      else s.threads,
           alerted := s.alerted || s.ctl.StopNotify?)
  }

  /** push, first half: the locked q.push. */
  function ApplyEnqueue(s: Pool, t: Task): Pool {
    s.(q := s.q + [t], enqueued := s.enqueued + [t], pending := s.pending + {t})
  }

  /** push, second half: under the pool mutex, notify_one; then return. */
  function ApplyNotify(s: Pool, t: Task, woken: Option<WorkerId>): Pool
    requires CanNotify(s, t, woken)
  {
    s.(pending := s.pending - {t}, returned := s.returned + {t},
       workers := if woken.Some? then SetPc(s.workers, woken.value, Signalled) else s.workers)
  }

  /** The guards at the head of `resize`. */
  function ApplyResize(s: Pool, n: nat): Pool {
    if s.isStop || s.isDone then s
    else if |s.threads| <= n then s.(ctl := Growing(n))
    else s.(ctl := Flagging(|s.threads|, n), shrunk := true)
  }

  /** The guards at the head of `stop`. */
  function ApplyStop(s: Pool, isWait: bool): Pool {
    if isWait then
      if s.isDone || s.isStop then s
      else s.(isDone := true, ctl := StopNotify, committed := s.returned, hadWorkers := s.threads != [])
    else if s.isStop then s
    else s.(isStop := true, ctl := StopFlags(0))
  }

  /** The state after an enabled step. */
  function Apply(s: Pool, step: Step): Pool
    requires Enabled(s, step)
  {
    match step
    case Enqueue(t) => ApplyEnqueue(s, t)
    case NotifyOne(t, woken) => ApplyNotify(s, t, woken)
    case Work(w) => ApplyWork(s, w)
    case CallResize(n) => ApplyResize(s, n)
    case CallStop(isWait) => ApplyStop(s, isWait)
    case Control => ApplyControl(s)
  }

  /** The steps can be taken one after the other from s. */
  ghost predicate ValidFrom(s: Pool, steps: seq<Step>)
    decreases |steps|
  {
    steps == [] || (Enabled(s, steps[0]) && ValidFrom(Apply(s, steps[0]), steps[1..]))
  }

  ghost function After(s: Pool, steps: seq<Step>): Pool
    requires ValidFrom(s, steps)
    decreases |steps|
  {
    if steps == [] then s else After(Apply(s, steps[0]), steps[1..])
  }

  /** Some interleaving leads from a fresh pool to s. */
  ghost predicate Reachable(s: Pool) {
    exists steps :: ValidFrom(INIT, steps) && After(INIT, steps) == s
  }
}
