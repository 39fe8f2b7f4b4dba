/** The accept loop and the user counters of src/server.cpp on top of the pool:
    each connection is a task whose body is process_request.  The counters are
    taken to be updated atomically. */
module Admission {
  import opened Wrappers
  import opened PoolMachine
  import opened PoolInvariants
  import opened PoolShutdown
  import opened PoolCases

  /** The main thread between two calls to accept. */
  datatype Main =
    | Accepting
    | Arrived(connection: Task)   // tmp_current_user counted, not pushed yet
    | Pushed(connection: Task)    // in the queue, push has not notified yet

  datatype Server = Server(
    pool: Pool,
    main: Main,
    serving: set<Task>,           // inside process_request, counted in current_user
    leaving: set<Task>,           // between the two final decrements
    left: set<Task>,              // past both
    current_user: int,
    tmp_current_user: int)

  datatype Move =
    | Accept(connection: Task)
    | Push
    | Notify(woken: Option<WorkerId>)
    | PoolWork(w: WorkerId)
    | Begin(w: WorkerId)          // counted in current_user
    | EndCurrent(w: WorkerId)     // no longer counted in current_user
    | EndTmp(w: WorkerId)         // no longer counted in tmp_current_user

  /** The worker is in the body of this connection's task. */
  predicate Runs(p: Pool, w: WorkerId, c: Task) {
    At(p, w, Running(c))
  }

  function InBody(p: Pool, w: WorkerId): Option<Task> {
    if w < |p.workers| && p.workers[w].pc.Running? then Some(p.workers[w].pc.task) else None
  }

  predicate CanMove(s: Server, m: Move) {
    match m
    case Accept(c) => s.main.Accepting? && c !in s.pool.pending && c !in s.pool.returned
    case Push => s.main.Arrived?
    case Notify(woken) => s.main.Pushed? && CanNotify(s.pool, s.main.connection, woken)
    case PoolWork(w) => CanWork(s.pool, w) && (InBody(s.pool, w).Some? ==> InBody(s.pool, w).value in s.left)
    case Begin(w) =>
      var c := InBody(s.pool, w);
      c.Some? && c.value !in s.serving && c.value !in s.leaving && c.value !in s.left
    case EndCurrent(w) => InBody(s.pool, w).Some? && InBody(s.pool, w).value in s.serving
    case EndTmp(w) => InBody(s.pool, w).Some? && InBody(s.pool, w).value in s.leaving
  }

  function Make(s: Server, m: Move): Server
    requires CanMove(s, m)
  {
    match m
    case Accept(c) => s.(main := Arrived(c), tmp_current_user := s.tmp_current_user + 1)
    case Push => s.(main := Pushed(s.main.connection), pool := ApplyEnqueue(s.pool, s.main.connection))
    case Notify(woken) => s.(main := Accepting, pool := ApplyNotify(s.pool, s.main.connection, woken))
    case PoolWork(w) => s.(pool := ApplyWork(s.pool, w))
    case Begin(w) =>
      s.(serving := s.serving + {InBody(s.pool, w).value}, current_user := s.current_user + 1)
    case EndCurrent(w) =>
      var c := InBody(s.pool, w).value;
      s.(serving := s.serving - {c}, leaving := s.leaving + {c}, current_user := s.current_user - 1)
    case EndTmp(w) =>
      var c := InBody(s.pool, w).value;
      s.(leaving := s.leaving - {c}, left := s.left + {c}, tmp_current_user := s.tmp_current_user - 1)
  }

  /** The server once thread_pool(LIMIT) has been constructed. */
  ghost predicate Start(s: Server, limit: nat) {
    && Reachable(s.pool)
    && s.pool.ctl.Idle? && !s.pool.isStop && !s.pool.isDone
    && |s.pool.workers| == limit
    && s.pool.enqueued == []
    && s.main.Accepting?
    && s.serving == {} && s.leaving == {} && s.left == {}
    && s.current_user == 0 && s.tmp_current_user == 0
  }

  // ---------------------------------------------------------------- construction

  /** thread_pool(limit): the constructor's resize reaches a start state. */
  lemma Construct(limit: nat) returns (s: Server)
    ensures Start(s, limit)
  {
    GrownReachable(limit);
    hide Reachable;
    s := Server(Grown(limit, Idle), Accepting, {}, {}, {}, 0, 0);
  }

  /** Claimed by a worker whose process_request has not started. */
  ghost function Unstarted(s: Server): set<Task> {
    Rest(Claimed(s.pool), s.serving, s.leaving, s.left)
  }

  ghost function Rest(claimed: set<Task>, serving: set<Task>, leaving: set<Task>, left: set<Task>): set<Task> {
    claimed - serving - leaving - left
  }

  lemma RestGrows(claimed: set<Task>, serving: set<Task>, leaving: set<Task>, left: set<Task>,
      c: Task)
    requires c !in claimed && c !in serving && c !in leaving && c !in left
    ensures |Rest(claimed + {c}, serving, leaving, left)| == |Rest(claimed, serving, leaving, left)| + 1
  {
    assert Rest(claimed + {c}, serving, leaving, left) == Rest(claimed, serving, leaving, left) + {c};
  }

  lemma RestShrinks(claimed: set<Task>, serving: set<Task>, leaving: set<Task>, left: set<Task>,
      c: Task)
    requires c in claimed && c !in serving && c !in leaving && c !in left
    ensures |Rest(claimed, serving + {c}, leaving, left)| + 1 == |Rest(claimed, serving, leaving, left)|
  {
    assert Rest(claimed, serving, leaving, left) == Rest(claimed, serving + {c}, leaving, left) + {c};
  }

  lemma RestKeeps(claimed: set<Task>, serving: set<Task>, leaving: set<Task>, left: set<Task>,
      c: Task)
    ensures c in serving ==> Rest(claimed, serving - {c}, leaving + {c}, left) == Rest(claimed, serving, leaving, left)
    ensures c in leaving ==> Rest(claimed, serving, leaving - {c}, left + {c}) == Rest(claimed, serving, leaving, left)
  {
  }

  // ---------------------------------------------------------------- invariant

  ghost predicate SessionInv(s: Server) {
    && s.serving !! s.leaving && s.serving !! s.left && s.leaving !! s.left
    && (forall c | c in s.serving || c in s.leaving ::
          c in s.pool.owner && s.pool.owner[c].ByWorker? && Runs(s.pool, s.pool.owner[c].worker, c))
    && (forall c | c in s.left :: c in Claimed(s.pool))
  }

  ghost predicate CounterInv(s: Server) {
    && s.current_user == |s.serving|
    && s.tmp_current_user ==
         (if s.main.Arrived? then 1 else 0) + |s.pool.q| + |Unstarted(s)| + |s.serving| + |s.leaving|
  }

  ghost predicate MainInv(s: Server) {
    && (s.main.Arrived? ==> s.main.connection !in s.pool.pending && s.main.connection !in s.pool.returned)
    && s.pool.ctl.Idle? && !s.pool.isStop && !s.pool.isDone
  }

  ghost predicate ServerInv(s: Server, limit: nat) {
    && Inv(s.pool) && |s.pool.workers| == limit
    && MainInv(s) && SessionInv(s) && CounterInv(s)
  }

  lemma StartInv(s: Server, limit: nat)
    requires Start(s, limit)
    ensures ServerInv(s, limit)
  {
    InvReachable(s.pool);
    assert forall t :: t !in s.pool.owner;
    assert Claimed(s.pool) == {};
  }

  /** Neither accept nor push touches a session or moves a running worker. */
  lemma PushFrame(s: Server, s': Server)
    requires SessionInv(s) && s' == s.(pool := s'.pool, main := s'.main, tmp_current_user := s'.tmp_current_user)
    requires s'.pool.owner == s.pool.owner && |s'.pool.workers| == |s.pool.workers|
    requires forall w | 0 <= w < |s.pool.workers| && s.pool.workers[w].pc.Running? ::
               s'.pool.workers[w].pc == s.pool.workers[w].pc
    ensures SessionInv(s') && Unstarted(s') == Unstarted(s)
  {
  }

  lemma AcceptInv(s: Server, limit: nat, c: Task)
    requires ServerInv(s, limit) && CanMove(s, Accept(c))
    ensures ServerInv(Make(s, Accept(c)), limit)
  {
    hide Inv;
    PushFrame(s, Make(s, Accept(c)));
    hide SessionInv, Unstarted;
  }

  lemma PushInv(s: Server, limit: nat)
    requires ServerInv(s, limit) && CanMove(s, Push)
    ensures ServerInv(Make(s, Push), limit)
  {
    hide Inv;
    var s' := Make(s, Push);
    assert Enabled(s.pool, Enqueue(s.main.connection));
    InvEnqueue(s.pool, s.main.connection);
    PushFrame(s, s');
    hide SessionInv, Unstarted;
  }

  lemma NotifyInv(s: Server, limit: nat, woken: Option<WorkerId>)
    requires ServerInv(s, limit) && CanMove(s, Notify(woken))
    ensures ServerInv(Make(s, Notify(woken)), limit)
  {
    hide Inv;
    var s' := Make(s, Notify(woken));
    InvNotify(s.pool, s.main.connection, woken);
    PushFrame(s, s');
    hide SessionInv, Unstarted;
  }

  lemma PoolWorkInv(s: Server, limit: nat, w: WorkerId)
    requires ServerInv(s, limit) && CanMove(s, PoolWork(w))
    ensures ServerInv(Make(s, PoolWork(w)), limit)
  {
    InvWork(s.pool, w);
    WorkShape(s.pool, w);
    assert FifoInv(s.pool);
    hide ApplyWork, Inv;
    SessionsWork(s, w);
    CountersWork(s, w);
    hide SessionInv, CounterInv, FifoInv;
  }

  lemma SessionsWork(s: Server, w: WorkerId)
    requires FifoInv(s.pool) && SessionInv(s) && CanMove(s, PoolWork(w))
    ensures SessionInv(Make(s, PoolWork(w)))
  {
    WorkShape(s.pool, w);
    if TakesTask(s.pool, w) { FifoTake(s.pool, ByWorker(w)); }
    hide ApplyWork, FifoInv;
  }

  lemma CountersWork(s: Server, w: WorkerId)
    requires FifoInv(s.pool) && SessionInv(s) && CounterInv(s) && CanMove(s, PoolWork(w))
    ensures CounterInv(Make(s, PoolWork(w)))
  {
    var p := s.pool;
    WorkShape(p, w);
    hide ApplyWork, NextPc, NextMutex, CanWork;
    if TakesTask(p, w) {
      var c := p.q[0];
      FifoTake(p, ByWorker(w));
      assert c !in Claimed(p) && c !in s.serving && c !in s.leaving && c !in s.left;
      hide FifoInv, SessionInv;
      assert Claimed(ApplyWork(p, w)) == Claimed(p) + {c};
      hide Claimed, Rest;
      RestGrows(Claimed(p), s.serving, s.leaving, s.left, c);
    }
  }

  lemma BodyOwned(s: Server, w: WorkerId)
    requires Inv(s.pool) && InBody(s.pool, w).Some?
    ensures var c := InBody(s.pool, w).value; c in Claimed(s.pool) && s.pool.owner[c] == ByWorker(w)
  {
    assert OwnsLoad(s.pool, w);
  }

  lemma BeginInv(s: Server, limit: nat, w: WorkerId)
    requires ServerInv(s, limit) && CanMove(s, Begin(w))
    ensures ServerInv(Make(s, Begin(w)), limit)
  {
    hide Inv;
    var c := InBody(s.pool, w).value;
    BodyOwned(s, w);
    BeginSession(s, w, c);
    assert c !in s.serving && c !in s.leaving && c !in s.left;
    hide SessionInv, Claimed;
    BeginCounters(s, w, c);
    hide CounterInv;
  }

  lemma BeginSession(s: Server, w: WorkerId, c: Task)
    requires SessionInv(s) && CanMove(s, Begin(w)) && InBody(s.pool, w) == Some(c)
    requires c in Claimed(s.pool) && s.pool.owner[c] == ByWorker(w)
    ensures SessionInv(Make(s, Begin(w)))
  {
  }

  lemma BeginCounters(s: Server, w: WorkerId, c: Task)
    requires CounterInv(s) && CanMove(s, Begin(w)) && InBody(s.pool, w) == Some(c) && c in Claimed(s.pool)
    requires c !in s.serving && c !in s.leaving && c !in s.left
    ensures CounterInv(Make(s, Begin(w)))
  {
    hide Claimed;
    RestShrinks(Claimed(s.pool), s.serving, s.leaving, s.left, c);
    hide Rest;
  }

  lemma EndCurrentInv(s: Server, limit: nat, w: WorkerId)
    requires ServerInv(s, limit) && CanMove(s, EndCurrent(w))
    ensures ServerInv(Make(s, EndCurrent(w)), limit)
  {
    hide Inv;
    var c := InBody(s.pool, w).value;
    BodyOwned(s, w);
    EndCurrentSession(s, w, c);
    assert c in s.serving && c !in s.leaving;
    hide SessionInv, Claimed;
    EndCurrentCounters(s, w, c);
    hide CounterInv;
  }

  lemma EndCurrentSession(s: Server, w: WorkerId, c: Task)
    requires SessionInv(s) && CanMove(s, EndCurrent(w)) && InBody(s.pool, w) == Some(c)
    requires c in Claimed(s.pool) && s.pool.owner[c] == ByWorker(w)
    ensures SessionInv(Make(s, EndCurrent(w)))
  {
  }

  lemma EndCurrentCounters(s: Server, w: WorkerId, c: Task)
    requires CounterInv(s) && CanMove(s, EndCurrent(w)) && InBody(s.pool, w) == Some(c) && c in Claimed(s.pool)
    requires c in s.serving && c !in s.leaving
    ensures CounterInv(Make(s, EndCurrent(w)))
  {
    hide Claimed;
    RestKeeps(Claimed(s.pool), s.serving, s.leaving, s.left, c);
    hide Rest;
  }

  lemma EndTmpInv(s: Server, limit: nat, w: WorkerId)
    requires ServerInv(s, limit) && CanMove(s, EndTmp(w))
    ensures ServerInv(Make(s, EndTmp(w)), limit)
  {
    hide Inv;
    var c := InBody(s.pool, w).value;
    BodyOwned(s, w);
    EndTmpSession(s, w, c);
    assert c in s.leaving && c !in s.serving;
    hide SessionInv, Claimed;
    EndTmpCounters(s, w, c);
    hide CounterInv;
  }

  lemma EndTmpSession(s: Server, w: WorkerId, c: Task)
    requires SessionInv(s) && CanMove(s, EndTmp(w)) && InBody(s.pool, w) == Some(c)
    requires c in Claimed(s.pool) && s.pool.owner[c] == ByWorker(w)
    ensures SessionInv(Make(s, EndTmp(w)))
  {
  }

  lemma EndTmpCounters(s: Server, w: WorkerId, c: Task)
    requires CounterInv(s) && CanMove(s, EndTmp(w)) && InBody(s.pool, w) == Some(c) && c in Claimed(s.pool)
    requires c in s.leaving && c !in s.serving
    ensures CounterInv(Make(s, EndTmp(w)))
  {
    hide Claimed;
    RestKeeps(Claimed(s.pool), s.serving, s.leaving, s.left, c);
    hide Rest;
  }

  ghost predicate ServerRun(s: Server, moves: seq<Move>)
    decreases |moves|
  {
    moves == [] || (CanMove(s, moves[0]) && ServerRun(Make(s, moves[0]), moves[1..]))
  }

  ghost function ServerAfter(s: Server, moves: seq<Move>): Server
    requires ServerRun(s, moves)
    decreases |moves|
  {
    if moves == [] then s else ServerAfter(Make(s, moves[0]), moves[1..])
  }

  lemma {:induction false} RunInv(s: Server, limit: nat, moves: seq<Move>)
    requires ServerInv(s, limit) && ServerRun(s, moves)
    ensures ServerInv(ServerAfter(s, moves), limit)
    decreases |moves|
  {
    hide ServerInv, Make;
    if moves != [] {
      match moves[0] {
        case Accept(c) => AcceptInv(s, limit, c);
        case Push => PushInv(s, limit);
        case Notify(woken) => NotifyInv(s, limit, woken);
        case PoolWork(w) => PoolWorkInv(s, limit, w);
        case Begin(w) => BeginInv(s, limit, w);
        case EndCurrent(w) => EndCurrentInv(s, limit, w);
        case EndTmp(w) => EndTmpInv(s, limit, w);
      }
      RunInv(Make(s, moves[0]), limit, moves[1..]);
    }
  }

  // ---------------------------------------------------------------- the theorem

  /** The tasks that workers carry. */
  ghost function Carried(ws: seq<Worker>): set<Task> {
    if ws == [] then {}
    else
      var pc := ws[|ws| - 1].pc;
      Carried(ws[..|ws| - 1]) + if pc.Running? || pc.PopHold? then {pc.task} else {}
  }

  lemma {:induction false} CarriedBound(ws: seq<Worker>)
    ensures |Carried(ws)| <= |ws|
    ensures forall w | 0 <= w < |ws| && ws[w].pc.Running? :: ws[w].pc.task in Carried(ws)
  {
    if ws != [] {
      CarriedBound(ws[..|ws| - 1]);
      assert forall w | 0 <= w < |ws| - 1 :: ws[w] == ws[..|ws| - 1][w];
    }
  }

  lemma SubsetBound(a: set<Task>, b: set<Task>)
    requires a <= b
    ensures |a| <= |b|
  {
    assert b == a + (b - a);
  }

  /** Admission control: never more than LIMIT sessions are being served, and the
      number the server prints as "might have to wait" is exactly the number of
      connections accepted and not pushed, queued, claimed and not started, or
      between the two final decrements. */
  lemma {:induction false} AdmissionControl(s0: Server, limit: nat, moves: seq<Move>)
    requires Start(s0, limit) && ServerRun(s0, moves)
    ensures var s := ServerAfter(s0, moves);
      && 0 <= s.current_user <= limit
      && s.tmp_current_user - s.current_user ==
           (if s.main.Arrived? then 1 else 0) + |s.pool.q| + |Unstarted(s)| + |s.leaving|
      && (s.tmp_current_user > limit ==> s.tmp_current_user - s.current_user >= 1)
  {
    StartInv(s0, limit);
    RunInv(s0, limit, moves);
    var s := ServerAfter(s0, moves);
    CarriedBound(s.pool.workers);
    hide Inv;
    assert s.serving <= Carried(s.pool.workers);
    SubsetBound(s.serving, Carried(s.pool.workers));
  }

  // ---------------------------------------------------------------- one connection

  lemma RunMore(s: Server, m: Move, s': Server, rest: seq<Move>)
    requires CanMove(s, m) && Make(s, m) == s' && ServerRun(s', rest)
    ensures ServerRun(s, [m] + rest) && ServerAfter(s, [m] + rest) == ServerAfter(s', rest)
  {
    hide CanMove, Make;
    assert ([m] + rest)[1..] == rest;
  }

  /** A connection is accepted, waits for a worker, is served and counted out: the
      first one, with any LIMIT of at least one. */
  lemma OneConnection(limit: nat, c: Task) returns (s: Server, moves: seq<Move>)
    requires limit >= 1
    ensures Start(s, limit) && ServerRun(s, moves)
    ensures var end := ServerAfter(s, moves);
      c in end.left && end.main.Accepting? && end.current_user == 0 && end.tmp_current_user == 0
  {
    hide Reachable, ServerRun, ServerAfter;
    GrownReachable(limit);
    var p := Grown(limit, Idle);
    s := Server(p, Accepting, {}, {}, {}, 0, 0);
    var s1 := s.(main := Arrived(c), tmp_current_user := 1);
    var s2 := s1.(main := Pushed(c), pool := p.(q := [c], enqueued := [c], pending := {c}));
    var s3 := s2.(main := Accepting, pool := p.(q := [c], enqueued := [c], returned := {c}));
    assert Make(s2, Notify(None)) == s3;
    var s4 := s3.(pool := ApplyWork(s3.pool, 0));
    assert InBody(s4.pool, 0) == Some(c);
    var s5 := s4.(serving := {c}, current_user := 1);
    var s6 := s5.(serving := {}, leaving := {c}, current_user := 0);
    var s7 := s6.(leaving := {}, left := {c}, tmp_current_user := 0);
    hide ApplyWork;
    assert ServerRun(s7, []) && ServerAfter(s7, []) == s7 by { Nothing(s7); }
    RunMore(s6, EndTmp(0), s7, []);
    RunMore(s5, EndCurrent(0), s6, [EndTmp(0)] + []);
    RunMore(s4, Begin(0), s5, [EndCurrent(0)] + ([EndTmp(0)] + []));
    RunMore(s3, PoolWork(0), s4, [Begin(0)] + ([EndCurrent(0)] + ([EndTmp(0)] + [])));
    moves := [PoolWork(0)] + ([Begin(0)] + ([EndCurrent(0)] + ([EndTmp(0)] + [])));
    RunMore(s2, Notify(None), s3, moves);
    moves := [Notify(None)] + moves;
    RunMore(s1, Push, s2, moves);
    moves := [Push] + moves;
    RunMore(s, Accept(c), s1, moves);
    moves := [Accept(c)] + moves;
  }

  lemma Nothing(s: Server)
    ensures ServerRun(s, []) && ServerAfter(s, []) == s
  {
  }
}
