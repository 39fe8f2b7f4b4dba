/** Whole rounds of a worker and of push when nothing interferes: what the steps of
    the machine add up to. */
module PoolRounds {
  import opened Wrappers
  import opened PoolMachine

  lemma Then(s: Pool, step: Step, s': Pool, rest: seq<Step>, end: Pool)
    requires Enabled(s, step) && Apply(s, step) == s' && ValidFrom(s', rest) && After(s', rest) == end
    ensures ValidFrom(s, [step] + rest) && After(s, [step] + rest) == end
  {
    hide Enabled, Apply;
    assert ([step] + rest)[1..] == rest;
  }

  lemma Last(s: Pool, step: Step, s': Pool)
    requires Enabled(s, step) && Apply(s, step) == s'
    ensures ValidFrom(s, [step]) && After(s, [step]) == s'
  {
    hide Enabled, Apply;
    assert ValidFrom(s', []) && After(s', []) == s';
    assert [step][1..] == [];
  }

  /** The pool with worker w elsewhere. */
  function Moved(s: Pool, w: WorkerId, pc: Pc): Pool
    requires w < |s.workers|
  {
    s.(workers := s.workers[w := s.workers[w].(pc := pc)])
  }

  /** The same, with this holder of the mutex and this count of waiting workers. */
  function Inside(s: Pool, w: WorkerId, pc: Pc, mutex: Option<WorkerId>, nWaiting: int): Pool
    requires w < |s.workers|
  {
    Moved(s, w, pc).(mutex := mutex, nWaiting := nWaiting)
  }

  /** A move of worker w leads from x to y. */
  predicate Leads(x: Pool, w: WorkerId, y: Pool) {
    Enabled(x, Work(w)) && Apply(x, Work(w)) == y
  }

  lemma ThenWork(x: Pool, w: WorkerId, y: Pool, rest: seq<Step>, end: Pool)
    requires Leads(x, w, y) && ValidFrom(y, rest) && After(y, rest) == end
    ensures ValidFrom(x, [Work(w)] + rest) && After(x, [Work(w)] + rest) == end
  {
    hide Enabled, Apply, ValidFrom, After;
    Then(x, Work(w), y, rest, end);
  }

  lemma LastWork(x: Pool, w: WorkerId, y: Pool)
    requires Leads(x, w, y)
    ensures ValidFrom(x, [Work(w)]) && After(x, [Work(w)]) == y
  {
    hide Enabled, Apply, ValidFrom, After;
    Last(x, Work(w), y);
  }

  /** A move of worker w that neither takes a task nor ends one. */
  lemma Moves(s: Pool, w: WorkerId, pc: Pc, mutex: Option<WorkerId>, n: int, pc': Pc, mutex': Option<WorkerId>, n': int)
    requires w < |s.workers| && (pc.WantLock? || pc.Signalled? ==> mutex.None?) && !pc.Exited? && !pc.Running?
    requires s.q == [] || !(pc.Popping? || pc.InPred?)
    requires var x := Inside(s, w, pc, mutex, n);
      && pc' == NextPc(x, w) && mutex' == NextMutex(x, w)
      && n' == n + (if pc.WantLock? then 1 else if pc.PopHold? || pc.Quitting? then -1 else 0)
    ensures Leads(Inside(s, w, pc, mutex, n), w, Inside(s, w, pc', mutex', n'))
  {
    hide NextPc, NextMutex;
    assert s.workers[w := s.workers[w].(pc := pc)][w := s.workers[w].(pc := pc')] == s.workers[w := s.workers[w].(pc := pc')];
  }

  /** A move of worker w that takes the front task. */
  lemma Takes(s: Pool, w: WorkerId, mutex: Option<WorkerId>, n: int)
    requires w < |s.workers| && s.q != []
    ensures Leads(Inside(s, w, InPred, mutex, n), w, Inside(Take(s, ByWorker(w)), w, PopHold(s.q[0]), mutex, n))
  {
    assert s.workers[w := s.workers[w].(pc := InPred)][w := s.workers[w].(pc := PopHold(s.q[0]))]
        == s.workers[w := s.workers[w].(pc := PopHold(s.q[0]))];
  }

  /** push queues its task at the end, wakes one sleeper if there is one, and returns. */
  lemma PushRound(s: Pool, t: Task, woken: Option<WorkerId>)
    requires t !in s.pending && t !in s.returned && s.mutex.None?
    requires if woken.Some? then At(s, woken.value, Asleep) else NoneAsleep(s.workers)
    ensures var steps := [Enqueue(t)] + [NotifyOne(t, woken)];
      var woke := if woken.Some? then Moved(s, woken.value, Signalled) else s;
      && ValidFrom(s, steps)
      && After(s, steps) == woke.(q := s.q + [t], enqueued := s.enqueued + [t], returned := s.returned + {t})
  {
    hide ValidFrom, After;
    var s1 := s.(q := s.q + [t], enqueued := s.enqueued + [t], pending := s.pending + {t});
    var woke := if woken.Some? then Moved(s, woken.value, Signalled) else s;
    var s2 := woke.(q := s.q + [t], enqueued := s.enqueued + [t], returned := s.returned + {t});
    assert s.pending + {t} - {t} == s.pending;
    Last(s1, NotifyOne(t, woken), s2);
    Then(s, Enqueue(t), s1, [NotifyOne(t, woken)], s2);
  }

  /** A worker that looks for a task in a nonempty queue takes the front one. */
  lemma TakesFront(s: Pool, w: WorkerId)
    requires At(s, w, Popping) && s.q != []
    ensures ValidFrom(s, [Work(w)])
    ensures After(s, [Work(w)]) == Moved(s, w, Running(s.q[0])).(
      q := s.q[1..], removed := s.removed + [s.q[0]], owner := s.owner[s.q[0] := ByWorker(w)])
  {
    hide ValidFrom, After, CtlOk, NoneAsleep;
    Last(s, Work(w), Apply(s, Work(w)));
  }

  lemma InsideIs(s: Pool, w: WorkerId, pc: Pc, mutex: Option<WorkerId>, n: int)
    requires w < |s.workers|
    ensures Inside(s, w, pc, mutex, n) == Moved(s, w, pc).(mutex := mutex, nWaiting := n)
    ensures s.workers[w].pc == pc && s.mutex == mutex && s.nWaiting == n ==> Inside(s, w, pc, mutex, n) == s
  {
  }

  /** A worker runs its task once, and then leaves if it is flagged and looks for
      another one otherwise. */
  lemma RunsTask(s: Pool, w: WorkerId, t: Task)
    requires At(s, w, Running(t))
    ensures var steps := [Work(w)] + [Work(w)];
      && ValidFrom(s, steps)
      && After(s, steps) == Moved(s, w, if s.workers[w].flag then Exited else Popping).(runs := s.runs + multiset{t})
  {
    hide ValidFrom, After, Leads, Inside;
    var ran := s.(runs := s.runs + multiset{t});
    var next := if s.workers[w].flag then Exited else Popping;
    var s1, s2 := Inside(ran, w, CheckFlag, s.mutex, s.nWaiting), Inside(ran, w, next, s.mutex, s.nWaiting);
    EndsTask(s, w, t);
    LastWork(s1, w, s2);
    ThenWork(s, w, s1, [Work(w)], s2);
    InsideIs(ran, w, next, s.mutex, s.nWaiting);
  }

  lemma EndsTask(s: Pool, w: WorkerId, t: Task)
    requires At(s, w, Running(t))
    ensures var ran := s.(runs := s.runs + multiset{t});
      && Leads(s, w, Inside(ran, w, CheckFlag, s.mutex, s.nWaiting))
      && Leads(Inside(ran, w, CheckFlag, s.mutex, s.nWaiting), w,
               Inside(ran, w, if s.workers[w].flag then Exited else Popping, s.mutex, s.nWaiting))
  {
    var ran := s.(runs := s.runs + multiset{t});
    Moves(ran, w, CheckFlag, s.mutex, s.nWaiting, if s.workers[w].flag then Exited else Popping, s.mutex, s.nWaiting);
  }

  /** Into the wait region, and through the predicate's pop on an empty queue. */
  lemma GoesIn(s: Pool, w: WorkerId, n: int)
    requires w < |s.workers| && s.q == []
    ensures Leads(Inside(s, w, Popping, None, n), w, Inside(s, w, WantLock, None, n))
    ensures Leads(Inside(s, w, WantLock, None, n), w, Inside(s, w, InPred, Some(w), n + 1))
    ensures Leads(Inside(s, w, Signalled, None, n), w, Inside(s, w, InPred, Some(w), n))
    ensures Leads(Inside(s, w, InPred, Some(w), n), w, Inside(s, w, CheckedEmpty, Some(w), n))
  {
    hide Leads;
    Moves(s, w, Popping, None, n, WantLock, None, n);
    Moves(s, w, WantLock, None, n, InPred, Some(w), n + 1);
    Moves(s, w, Signalled, None, n, InPred, Some(w), n);
    Moves(s, w, InPred, Some(w), n, CheckedEmpty, Some(w), n);
  }

  /** What the predicate's reads of isDone and of the flag lead to. */
  lemma Decides(s: Pool, w: WorkerId, n: int)
    requires w < |s.workers|
    ensures Leads(Inside(s, w, CheckedEmpty, Some(w), n), w,
                  Inside(s, w, if s.isDone then Quitting else CheckedNotDone, Some(w), n))
    ensures s.workers[w].flag ==>
      Leads(Inside(s, w, CheckedNotDone, Some(w), n), w, Inside(s, w, Quitting, Some(w), n))
    ensures !s.workers[w].flag ==>
      Leads(Inside(s, w, CheckedNotDone, Some(w), n), w, Inside(s, w, Asleep, None, n))
    ensures Leads(Inside(s, w, Quitting, Some(w), n), w, Inside(s, w, Exited, None, n - 1))
  {
    hide Leads;
    Moves(s, w, CheckedEmpty, Some(w), n, if s.isDone then Quitting else CheckedNotDone, Some(w), n);
    if s.workers[w].flag {
      Moves(s, w, CheckedNotDone, Some(w), n, Quitting, Some(w), n);
    } else {
      Moves(s, w, CheckedNotDone, Some(w), n, Asleep, None, n);
    }
    Moves(s, w, Quitting, Some(w), n, Exited, None, n - 1);
  }

  /** A worker that finds the queue empty, in an open pool and with its flag down,
      is counted as waiting, sleeps and leaves the mutex free. */
  lemma FallsAsleep(s: Pool, w: WorkerId)
    requires At(s, w, Popping) && s.q == [] && s.mutex.None? && !s.isDone && !s.workers[w].flag
    ensures var steps := [Work(w)] + ([Work(w)] + ([Work(w)] + ([Work(w)] + [Work(w)])));
      && ValidFrom(s, steps)
      && After(s, steps) == Moved(s, w, Asleep).(nWaiting := s.nWaiting + 1)
  {
    hide ValidFrom, After, Leads, Inside;
    var n, end := s.nWaiting, Inside(s, w, Asleep, None, s.nWaiting + 1);
    GoesIn(s, w, n);
    GoesIn(s, w, n + 1);
    Decides(s, w, n + 1);
    LastWork(Inside(s, w, CheckedNotDone, Some(w), n + 1), w, end);
    ThenWork(Inside(s, w, CheckedEmpty, Some(w), n + 1), w, Inside(s, w, CheckedNotDone, Some(w), n + 1), [Work(w)], end);
    ThenWork(Inside(s, w, InPred, Some(w), n + 1), w, Inside(s, w, CheckedEmpty, Some(w), n + 1),
             [Work(w)] + [Work(w)], end);
    ThenWork(Inside(s, w, WantLock, None, n), w, Inside(s, w, InPred, Some(w), n + 1),
             [Work(w)] + ([Work(w)] + [Work(w)]), end);
    ThenWork(Inside(s, w, Popping, None, n), w, Inside(s, w, WantLock, None, n),
             [Work(w)] + ([Work(w)] + ([Work(w)] + [Work(w)])), end);
    InsideIs(s, w, Popping, None, n);
    InsideIs(s, w, Asleep, None, n + 1);
  }

  /** A woken worker takes the front task and is no longer counted as waiting. */
  lemma WakesToTask(s: Pool, w: WorkerId)
    requires At(s, w, Signalled) && s.q != [] && s.mutex.None?
    ensures var steps := [Work(w)] + ([Work(w)] + [Work(w)]);
      && ValidFrom(s, steps)
      && After(s, steps) == Moved(Take(s, ByWorker(w)), w, Running(s.q[0])).(nWaiting := s.nWaiting - 1)
  {
    hide ValidFrom, After, Leads, Inside;
    var t, n, taken := s.q[0], s.nWaiting, Take(s, ByWorker(w));
    var end := Inside(taken, w, Running(t), None, n - 1);
    WakesUp(s, w, n);
    LastWork(Inside(taken, w, PopHold(t), Some(w), n), w, end);
    ThenWork(Inside(s, w, InPred, Some(w), n), w, Inside(taken, w, PopHold(t), Some(w), n), [Work(w)], end);
    ThenWork(Inside(s, w, Signalled, None, n), w, Inside(s, w, InPred, Some(w), n), [Work(w)] + [Work(w)], end);
    InsideIs(s, w, Signalled, None, n);
    InsideIs(taken, w, Running(t), None, n - 1);
  }

  lemma WakesUp(s: Pool, w: WorkerId, n: int)
    requires w < |s.workers| && s.q != []
    ensures var taken := Take(s, ByWorker(w));
      && Leads(Inside(s, w, Signalled, None, n), w, Inside(s, w, InPred, Some(w), n))
      && Leads(Inside(s, w, InPred, Some(w), n), w, Inside(taken, w, PopHold(s.q[0]), Some(w), n))
      && Leads(Inside(taken, w, PopHold(s.q[0]), Some(w), n), w, Inside(taken, w, Running(s.q[0]), None, n - 1))
  {
    hide Leads;
    Moves(s, w, Signalled, None, n, InPred, Some(w), n);
    Takes(s, w, Some(w), n);
    Moves(Take(s, ByWorker(w)), w, PopHold(s.q[0]), Some(w), n, Running(s.q[0]), None, n - 1);
  }

  /** A woken worker that finds the queue empty in a pool that is done, or with its
      flag up, ends and is no longer counted as waiting. */
  lemma WakesToQuit(s: Pool, w: WorkerId) returns (steps: seq<Step>)
    requires At(s, w, Signalled) && s.q == [] && s.mutex.None? && (s.isDone || s.workers[w].flag)
    ensures ValidFrom(s, steps) && (forall i | 0 <= i < |steps| :: steps[i] == Work(w))
    ensures After(s, steps) == Moved(s, w, Exited).(nWaiting := s.nWaiting - 1)
  {
    hide ValidFrom, After, Leads, Inside;
    var n, end := s.nWaiting, Inside(s, w, Exited, None, s.nWaiting - 1);
    GoesIn(s, w, n);
    Decides(s, w, n);
    LastWork(Inside(s, w, Quitting, Some(w), n), w, end);
    steps := [Work(w)];
    if !s.isDone {
      ThenWork(Inside(s, w, CheckedNotDone, Some(w), n), w, Inside(s, w, Quitting, Some(w), n), steps, end);
      steps := [Work(w)] + steps;
    }
    ThenWork(Inside(s, w, CheckedEmpty, Some(w), n), w,
             Inside(s, w, if s.isDone then Quitting else CheckedNotDone, Some(w), n), steps, end);
    steps := [Work(w)] + steps;
    ThenWork(Inside(s, w, InPred, Some(w), n), w, Inside(s, w, CheckedEmpty, Some(w), n), steps, end);
    steps := [Work(w)] + steps;
    ThenWork(Inside(s, w, Signalled, None, n), w, Inside(s, w, InPred, Some(w), n), steps, end);
    steps := [Work(w)] + steps;
    InsideIs(s, w, Signalled, None, n);
    InsideIs(s, w, Exited, None, n - 1);
  }
}
