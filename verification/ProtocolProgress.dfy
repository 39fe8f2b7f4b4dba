/** What clients of the payment protocol can get done: from every reachable state
    the steps that bring a command or a payment to its end are enabled. */
module ProtocolProgress {
  import opened Wrappers
  import opened Ledger
  import opened Commands
  import opened Server
  import opened Queries
  import opened SessionIndex
  import opened Protocol
  import opened ProtocolInvariants
  import opened ProtocolSteps
  import opened ProtocolReplies
  import LedgerRuns
  import opened ProtocolTheorems

  // ---------------------------------------------------------------- what an undisturbed client achieves

  lemma {:induction false} ThreeSteps(s: Sys, s1: Sys, s2: Sys, s3: Sys, a: Step, b: Step, c: Step)
    requires Enabled(s, a) && Apply(s, a) == s1 && Enabled(s1, b) && Apply(s1, b) == s2
    requires Enabled(s2, c) && Apply(s2, c) == s3
    ensures Run(s, [a, b, c]) && After(s, [a, b, c]) == s3
  {
    hide Enabled, Apply;
    assert [a, b, c][1..] == [b, c] && [b, c][1..] == [c] && [c][1..] == [];
    assert Run(s3, []) && After(s3, []) == s3;
    assert Run(s2, [c]) && After(s2, [c]) == s3;
    assert Run(s1, [b, c]) && After(s1, [b, c]) == s3;
  }

  lemma {:induction false} FourSteps(s: Sys, s1: Sys, s2: Sys, s3: Sys, s4: Sys, a: Step, b: Step, c: Step, d: Step)
    requires Enabled(s, a) && Apply(s, a) == s1 && Enabled(s1, b) && Apply(s1, b) == s2
    requires Enabled(s2, c) && Apply(s2, c) == s3 && Enabled(s3, d) && Apply(s3, d) == s4
    ensures Run(s, [a, b, c, d]) && After(s, [a, b, c, d]) == s4
  {
    hide Enabled, Apply;
    ThreeSteps(s1, s2, s3, s4, b, c, d);
    assert [a, b, c, d][1..] == [b, c, d];
  }

  lemma HandOver(s: Sys, c: Connection, peer: Connection, rcv: string, amount: int)
    requires Enabled(s, SendPay(c, peer, rcv, amount)) && s.agents[peer].inbox == [] && s.agents[peer].up == []
    ensures var s1 := ApplySendPay(s, c, peer, rcv, amount);
      var u := Up(PaymentOf(s.agents[c], rcv, amount), Some(PayId(c, s.agents[c].serial)));
      && Enabled(s1, Relay(peer))
      && var s2 := ApplyRelay(s1, peer);
         && s2.sessions == s.sessions && s2.rows == s.rows && s2.fds == s.fds
         && peer in s2.agents && s2.agents[peer].up == [u]
         && c in s2.agents && s2.agents[c].main == AwaitPay(PayId(c, s.agents[c].serial))
  {
    hide PaymentOf, NamesOk;
  }

  lemma SettleAndAnswer(s: Sys, p: Connection, id: PayId)
    requires Inv(s) && CanServe(s, p) && s.agents[p].up[0].id == Some(id)
    requires id.client in s.agents && s.agents[id.client].main == AwaitPay(id)
    ensures var req, s' := s.agents[p].up[0].req, ApplyServe(s, p);
      && req.AskTransfer? && id.client in s'.agents
      && var r := Transfer(s.rows, req.snd, req.rcv, req.amount);
         && s'.rows == r.rows && s'.agents[id.client].main == AwaitPay(id)
         && s'.agents[id.client].down == [Down(TransferReply(r.status), Some(id))]
  {
    hide DataInv, LinkInv, TokenInv, LogInv, PayInv, Transfer, FdOf, Row, SessionsAfter, Settle;
    DataRows(s);
    PayerIsKnown(s, p);
    HeadIsTransfer(s.agents, s.pays, p);
    UnsettledHead(s.agents, s.pays, p);
    AwaitingPay(s.agents, s.sessions, s.pays, id.client);
    ReactsToTransfer(s, p);
    TransferWrites(s, p);
  }

  lemma TransferWrites(s: Sys, p: Connection)
    requires CanServe(s, p) && s.agents[p].up[0].req.AskTransfer?
    ensures var req := s.agents[p].up[0].req;
      Reacts(s, p).rows == Transfer(s.rows, req.snd, req.rcv, req.amount).rows
  {
  }

  lemma ReadEnds(s: Sys, c: Connection, id: PayId, status: int)
    requires c in s.agents && s.agents[c].main == AwaitPay(id) && s.agents[c].down == [Down(TransferReply(status), Some(id))]
    ensures Enabled(s, Read(c))
    ensures var s' := ApplyRead(s, c);
      && s'.rows == s.rows && id in s'.answers && s'.answers[id] == ReplyText(TransferReply(status))
      && c in s'.agents && s'.agents[c].main.Menu?
  {
  }

  lemma PaymentIs(a: Agent, rcv: string, amount: int)
    requires NamesOk(Pay(a.name, amount, rcv))
    ensures PaymentOf(a, rcv, amount) == AskTransfer(a.name, amount as real, rcv)
  {
    SentMeans(Pay(a.name, amount, rcv));
    hide NamesOk, Sent;
  }

  /** Reading the abbreviations of Apply and Enabled. */
  lemma StepsAre(s: Sys, c: Connection)
    ensures forall peer, rcv, amount :: Enabled(s, SendPay(c, peer, rcv, amount)) ==>
      NamesOk(Pay(s.agents[c].name, amount, rcv)) && Apply(s, SendPay(c, peer, rcv, amount)) == ApplySendPay(s, c, peer, rcv, amount)
    ensures forall cmd :: Enabled(s, Send(c, cmd)) ==>
      c in s.agents && NamesOk(cmd) && Apply(s, Send(c, cmd)) == s.(agents := s.agents[c := AfterSend(s.agents[c], cmd)])
    ensures Enabled(s, Relay(c)) ==> Apply(s, Relay(c)) == ApplyRelay(s, c)
    ensures Enabled(s, Serve(c)) <==> CanServe(s, c)
    ensures Enabled(s, Serve(c)) ==> Apply(s, Serve(c)) == ApplyServe(s, c)
    ensures Enabled(s, Read(c)) ==> Apply(s, Read(c)) == ApplyRead(s, c)
  {
    hide NamesOk, AfterSend, ApplySendPay, ApplyRelay, ApplyServe, ApplyRead;
  }

  lemma StepNeedsAgent(s: Sys, c: Connection, peer: Connection, rcv: string, amount: int)
    requires Enabled(s, SendPay(c, peer, rcv, amount))
    ensures c in s.agents && peer in s.agents
  {
  }

  /** The first three steps of a payment through an idle peer. */
  lemma PaymentChain(s: Sys, c: Connection, peer: Connection, rcv: string, amount: int)
    returns (s1: Sys, s2: Sys, s3: Sys)
    requires Inv(s) && Enabled(s, SendPay(c, peer, rcv, amount))
    requires s.agents[peer].inbox == [] && s.agents[peer].up == [] && peer in s.sessions
    ensures s1 == Apply(s, SendPay(c, peer, rcv, amount))
    ensures Enabled(s1, Relay(peer)) && s2 == Apply(s1, Relay(peer))
    ensures Enabled(s2, Serve(peer)) && s3 == Apply(s2, Serve(peer))
    ensures var r := Transfer(s.rows, s.agents[c].name, rcv, amount as real);
      var id := PayId(c, s.agents[c].serial);
      && s3.rows == r.rows && c in s3.agents && s3.agents[c].main == AwaitPay(id)
      && s3.agents[c].down == [Down(TransferReply(r.status), Some(id))]
  {
    hide Inv, Transfer, NamesOk, ApplySendPay, ApplyRelay, ApplyServe, Enabled, Apply, PaymentOf;
    StepNeedsAgent(s, c, peer, rcv, amount);
    StepsAre(s, c);
    HandOver(s, c, peer, rcv, amount);
    InvSendPay(s, c, peer, rcv, amount);
    s1 := ApplySendPay(s, c, peer, rcv, amount);
    StepsAre(s1, peer);
    InvRelay(s1, peer);
    s2 := ApplyRelay(s1, peer);
    StepsAre(s2, peer);
    PaymentIs(s.agents[c], rcv, amount);
    SettleAndAnswer(s2, peer, PayId(c, s.agents[c].serial));
    s3 := ApplyServe(s2, peer);
  }

  lemma PaymentRuns(s: Sys, c: Connection, peer: Connection, rcv: string, amount: int)
    requires Reachable(s) && Enabled(s, SendPay(c, peer, rcv, amount))
    requires s.agents[peer].inbox == [] && s.agents[peer].up == [] && peer in s.sessions
    ensures var steps := [SendPay(c, peer, rcv, amount), Relay(peer), Serve(peer), Read(c)];
      && Run(s, steps)
      && var s' := After(s, steps);
         var r := Transfer(s.rows, s.agents[c].name, rcv, amount as real);
         var id := PayId(c, s.agents[c].serial);
         && s'.rows == r.rows && id in s'.answers && s'.answers[id] == ReplyText(TransferReply(r.status))
         && c in s'.agents && s'.agents[c].main.Menu?
  {
    hide Reachable, Inv, Transfer, ReplyText, Run, After, Enabled, Apply, ApplyRead;
    InvReachable(s);
    StepNeedsAgent(s, c, peer, rcv, amount);
    var s1, s2, s3 := PaymentChain(s, c, peer, rcv, amount);
    ReadEnds(s3, c, PayId(c, s.agents[c].serial), Transfer(s.rows, s.agents[c].name, rcv, amount as real).status);
    StepsAre(s3, c);
    FourSteps(s, s1, s2, s3, ApplyRead(s3, c), SendPay(c, peer, rcv, amount), Relay(peer), Serve(peer), Read(c));
  }

  /** A client at its menu that knows peers can hand any payment to any idle peer
      whose peer socket is open, and it can run to its end in four steps: the ledger
      transfers the amount that was asked for between the payer and the receiver, and
      the payer is back at its menu with the ledger's verdict. */
  lemma UndisturbedPayment(s: Sys, c: Connection, peer: Connection, rcv: string, amount: int)
    requires Reachable(s) && c in s.agents && s.agents[c].main.Menu? && s.agents[c].knowsPeers
    requires NamesOk(Pay(s.agents[c].name, amount, rcv))
    requires peer in s.agents && s.agents[peer].open && !s.agents[peer].main.Gone? && peer in s.sessions
    requires s.agents[peer].inbox == [] && s.agents[peer].up == []
    ensures var steps := [SendPay(c, peer, rcv, amount), Relay(peer), Serve(peer), Read(c)];
      && Run(s, steps)
      && var s' := After(s, steps);
         var r := Transfer(s.rows, s.agents[c].name, rcv, amount as real);
         var id := PayId(c, s.agents[c].serial);
         && s'.rows == r.rows && id in s'.answers && s'.answers[id] == ReplyText(TransferReply(r.status))
         && c in s'.agents && s'.agents[c].main.Menu?
  {
    assert Enabled(s, SendPay(c, peer, rcv, amount));
    PaymentRuns(s, c, peer, rcv, amount);
  }

  lemma ServeOwn(s: Sys, c: Connection, req: Request)
    requires Inv(s) && CanServe(s, c) && s.agents[c].up == [Up(req, None)] && s.agents[c].down == []
    ensures var s', r := ApplyServe(s, c), Reacts(s, c);
      && s'.rows == r.rows && s'.fds == r.fds && s'.sessions == SessionsAfter(s.sessions, c, r)
      && s'.agents == s.agents[c := s.agents[c].(up := [], down := [Down(r.reply, None)])] && Answers(r.reply, req)
  {
    hide DataInv, LinkInv, TokenInv, LogInv, PayInv, React, SessionsAfter, Settle;
    DataRows(s);
    OwnIsNoTransfer(s.agents, s.sessions, s.pays, c);
    var a, k := s.agents[c], s.sessions[c];
    ReactAnswers(s.rows, s.fds, c, k, req);
    assert a.up[1..] == [] && a.down + [Down(Reacts(s, c).reply, None)] == [Down(Reacts(s, c).reply, None)];
    assert ApplyServe(s, c).agents == s.agents[c := a.(up := [], down := [Down(Reacts(s, c).reply, None)])];
  }

  /** The name under which a client goes once it has sent a command. */
  function NameAfter(a: Agent, cmd: Command): string {
    if cmd.Login? || (cmd.Register? && !a.open) then cmd.name else a.name
  }

  lemma SendOwn(a: Agent, cmd: Command)
    requires NamesOk(cmd) && a.up == []
    ensures AfterSend(a, cmd) == a.(main := Await(cmd), name := NameAfter(a, cmd), up := [Up(Sent(cmd), None)])
  {
  }

  lemma ReadOwn(a: Agent, cmd: Command, reply: Reply)
    requires a.main == Await(cmd) && NamesOk(cmd) && a.down == [Down(reply, None)] && Answers(reply, Sent(cmd))
    ensures AfterRead(a) == a.(
      main := if cmd.Exit? then Gone else Menu,
      open := a.open || (cmd.Login? && reply.LoginOk?),
      knowsPeers := a.knowsPeers || (cmd.List? && reply.Listing?),
      down := [])
  {
    SentMeans(cmd);
    if cmd.Login? { AcceptedExact(reply, Sent(cmd)); }
    hide Sent, NamesOk, Accepted;
  }

  /** A command that nothing else disturbs takes three steps, for every client at
      its menu: the server does what the printed command means, nobody else notices,
      and the client is back at its menu, or ends after Exit.  It then counts as
      logged in if it did before or its login succeeded, goes under the name that it
      registered or logged in with, and knows its peers once it got a list. */
  lemma UndisturbedCommand(s: Sys, c: Connection, cmd: Command)
    requires Reachable(s) && c in s.agents && s.agents[c].main.Menu? && s.agents[c].up == []
    requires NamesOk(cmd) && !cmd.Pay? && (cmd.Login? ==> !s.agents[c].open)
    ensures c in s.sessions
    ensures var a, k := s.agents[c], s.sessions[c];
      var steps := [Send(c, cmd), Serve(c), Read(c)];
      var r := React(s.rows, s.fds, c, k.ip, k.port, k.username, Sent(cmd));
      && Run(s, steps)
      && var s' := After(s, steps);
         && s'.rows == r.rows && s'.fds == r.fds && s'.sessions == SessionsAfter(s.sessions, c, r)
         && s'.agents == s.agents[c := a.(
              main := if cmd.Exit? then Gone else Menu,
              name := NameAfter(a, cmd),
              open := a.open || (cmd.Login? && r.reply.LoginOk?),
              knowsPeers := a.knowsPeers || (cmd.List? && r.reply.Listing?))]
  {
    assert Enabled(s, Send(c, cmd));
    CommandRuns(s, c, cmd);
  }

  lemma CommandRuns(s: Sys, c: Connection, cmd: Command)
    requires Reachable(s) && Enabled(s, Send(c, cmd)) && s.agents[c].up == []
    ensures c in s.agents && c in s.sessions && NamesOk(cmd)
    ensures var a, k := s.agents[c], s.sessions[c];
      var steps := [Send(c, cmd), Serve(c), Read(c)];
      var r := React(s.rows, s.fds, c, k.ip, k.port, k.username, Sent(cmd));
      && Run(s, steps)
      && var s' := After(s, steps);
         && s'.rows == r.rows && s'.fds == r.fds && s'.sessions == SessionsAfter(s.sessions, c, r)
         && s'.agents == s.agents[c := a.(
              main := if cmd.Exit? then Gone else Menu,
              name := NameAfter(a, cmd),
              open := a.open || (cmd.Login? && r.reply.LoginOk?),
              knowsPeers := a.knowsPeers || (cmd.List? && r.reply.Listing?))]
  {
    hide Reachable, Inv, React, Run, After, Enabled, Apply, ApplyRead, ApplyServe, AfterSend, AfterRead, Sent,
         NamesOk, Answers, NameAfter, SessionsAfter;
    InvReachable(s);
    StepsAre(s, c);
    MenuIsLinked(s, c, cmd);
    var a := s.agents[c];
    var s1 := s.(agents := s.agents[c := AfterSend(a, cmd)]);
    InvStep(s, Send(c, cmd));
    SendOwn(a, cmd);
    StepsAre(s1, c);
    ServeOwn(s1, c, Sent(cmd));
    var s2 := ApplyServe(s1, c);
    ReadOwn(s2.agents[c], cmd, s2.agents[c].down[0].reply);
    ReadIs(s2, c);
    StepsAre(s2, c);
    ThreeSteps(s, s1, s2, ApplyRead(s2, c), Send(c, cmd), Serve(c), Read(c));
  }

  lemma ReadIs(s: Sys, c: Connection)
    requires c in s.agents && s.agents[c].main.Await? && s.agents[c].down != []
    ensures Enabled(s, Read(c)) && ApplyRead(s, c) == s.(agents := s.agents[c := AfterRead(s.agents[c])])
  {
  }

  lemma MenuIsLinked(s: Sys, c: Connection, cmd: Command)
    requires Inv(s) && Enabled(s, Send(c, cmd))
    ensures c in s.sessions && s.agents[c].down == []
  {
    LinkedOf(s.agents, s.sessions, s.pays, c);
    hide DataInv, LinkInv, TokenInv, LogInv, PayInv, Sent, NamesOk;
  }

  // ---------------------------------------------------------------- every payer can get its answer

  ghost function Repeat(n: nat, step: Step): seq<Step> {
    seq(n, i => step)
  }

  lemma {:induction false} RunAppend(s: Sys, a: seq<Step>, b: seq<Step>)
    requires Run(s, a) && Run(After(s, a), b)
    ensures Run(s, a + b) && After(s, a + b) == After(After(s, a), b)
    decreases |a|
  {
    hide Enabled, Apply;
    if a == [] {
      assert a + b == b;
    } else {
      assert (a + b)[1..] == a[1..] + b;
      RunAppend(Apply(s, a[0]), a[1..], b);
    }
  }

  lemma {:induction false} RunFirst(s: Sys, n: nat, step: Step)
    requires Enabled(s, step) && Run(Apply(s, step), Repeat(n, step))
    ensures Run(s, Repeat(n + 1, step))
    ensures After(s, Repeat(n + 1, step)) == After(Apply(s, step), Repeat(n, step))
  {
    hide Enabled, Apply;
    assert Repeat(n + 1, step)[1..] == Repeat(n, step);
  }

  lemma {:induction false} RunNone(s: Sys, step: Step)
    ensures Run(s, Repeat(0, step)) && After(s, Repeat(0, step)) == s
  {
  }

  predicate NoExit(up: seq<Up>) {
    forall i | 0 <= i < |up| :: !up[i].req.AskExit?
  }

  /** Serving a command other than Exit keeps the session and takes the command. */
  lemma ServeHead(s: Sys, p: Connection)
    requires CanServe(s, p) && !s.agents[p].up[0].req.AskExit?
    ensures var s' := ApplyServe(s, p);
      && p in s'.sessions && p in s'.agents && s'.agents[p].up == s.agents[p].up[1..]
      && SameControl(s.agents, s'.agents)
  {
    var u, r := s.agents[p].up[0], Reacts(s, p);
    assert !r.ends by {
      hide GetAll, Row, BalanceOf, Erase, FdOf, Logout, Transfer, Ledger.Login, Ledger.Register;
    }
    hide Reacts, React;
    ServeControl(s.agents, p, r.to, Down(r.reply, u.id));
  }

  /** Serving up to a payment's message brings its payer the answer. */
  lemma {:induction false} ServeUntil(s: Sys, p: Connection, i: nat, id: PayId)
    requires Inv(s) && p in s.sessions && p in s.agents && i < |s.agents[p].up|
    requires s.agents[p].up[i].id == Some(id) && NoExit(s.agents[p].up[..i])
    requires id.client in s.agents && s.agents[id.client].main == AwaitPay(id)
    ensures Run(s, Repeat(i + 1, Serve(p)))
    ensures var s' := After(s, Repeat(i + 1, Serve(p)));
      && Inv(s') && id.client in s'.agents && s'.agents[id.client].main == AwaitPay(id) && s'.agents[id.client].down != []
    decreases i
  {
    hide Inv, Apply, Enabled, ApplyServe, Run, After, Repeat;
    StepsAre(s, p);
    InvStep(s, Serve(p));
    var s' := Apply(s, Serve(p));
    if i == 0 {
      SettleAndAnswer(s, p, id);
      RunNone(s', Serve(p));
      RunFirst(s, 0, Serve(p));
    } else {
      assert s.agents[p].up[..i][0] == s.agents[p].up[0];
      ServeHead(s, p);
      assert s'.agents[p].up[..i - 1] == s.agents[p].up[..i][1..];
      ServeUntil(s', p, i - 1, id);
      RunFirst(s, i, Serve(p));
    }
  }

  lemma RelayHead(s: Sys, p: Connection)
    requires Enabled(s, Relay(p))
    ensures var a, s' := s.agents[p], ApplyRelay(s, p);
      && s'.sessions == s.sessions && SameControl(s.agents, s'.agents)
      && p in s'.agents && s'.agents[p].main == a.main
      && s'.agents[p].inbox == a.inbox[1..] && s'.agents[p].up == a.up + [a.inbox[0]]
  {
  }

  /** Relaying the first i + 1 messages puts them behind the peer's other messages. */
  lemma {:induction false} RelayUntil(s: Sys, p: Connection, i: nat)
    requires Inv(s) && p in s.agents && !s.agents[p].main.Gone? && i < |s.agents[p].inbox|
    ensures Run(s, Repeat(i + 1, Relay(p)))
    ensures var a, s' := s.agents[p], After(s, Repeat(i + 1, Relay(p)));
      && Inv(s') && s'.sessions == s.sessions && SameControl(s.agents, s'.agents)
      && p in s'.agents && s'.agents[p].up == a.up + a.inbox[..i + 1]
    decreases i
  {
    hide Inv, Apply, Enabled, ApplyRelay, Run, After, Repeat, SameControl;
    var a := s.agents[p];
    CanRelay(s, p);
    StepsAre(s, p);
    InvStep(s, Relay(p));
    RelayHead(s, p);
    var s' := Apply(s, Relay(p));
    if i == 0 {
      RunNone(s', Relay(p));
      RunFirst(s, 0, Relay(p));
      assert a.inbox[..1] == [a.inbox[0]];
    } else {
      RelayUntil(s', p, i - 1);
      RunFirst(s, i, Relay(p));
      TakeMore(a.up, a.inbox, i);
      SameControlTwice(s.agents, s'.agents, After(s', Repeat(i, Relay(p))).agents);
    }
  }

  lemma CanRelay(s: Sys, p: Connection)
    requires p in s.agents && !s.agents[p].main.Gone? && s.agents[p].inbox != []
    ensures Enabled(s, Relay(p))
  {
  }

  lemma TakeMore(up: seq<Up>, inbox: seq<Up>, i: nat)
    requires i < |inbox|
    ensures up + [inbox[0]] + inbox[1..][..i] == up + inbox[..i + 1]
  {
  }

  lemma SameControlTwice(a: Agents, b: Agents, c: Agents)
    requires SameControl(a, b) && SameControl(b, c)
    ensures SameControl(a, c)
  {
  }

  lemma NoExitAhead(s: Sys, p: Connection, i: nat)
    requires Inv(s) && p in s.agents && i <= |s.agents[p].inbox| && NoExit(s.agents[p].up)
    ensures NoExit(s.agents[p].up + s.agents[p].inbox[..i])
  {
    hide DataInv, LinkInv, TokenInv, LogInv, PayInv;
    InboxHasNoExit(s.agents, s.pays, p);
  }

  lemma InboxHasNoExit(agents: Agents, pays: Payments, p: Connection)
    requires TokenInv(agents, pays) && p in agents
    ensures NoExit(agents[p].inbox)
  {
  }

  /** The carrier of a payment can still deliver it: it has not gone, its session is
      live, and it has sent no Exit that the server will read first. */
  ghost predicate Deliverable(s: Sys, id: PayId) {
    && id in s.pays
    && match s.pays[id].at
       case AtPeer(p) => p in s.sessions && p in s.agents && !s.agents[p].main.Gone? && NoExit(s.agents[p].up)
       case Forwarded(p) => p in s.sessions && p in s.agents && NoExitBefore(s.agents[p].up, id)
       case Settled(_) => true
  }

  ghost predicate NoExitBefore(up: seq<Up>, id: PayId) {
    forall i | 0 <= i < |up| && up[i].id == Some(id) :: NoExit(up[..i])
  }

  /** How many steps the answer can take: every message ahead is relayed and served. */
  function Distance(s: Sys, at: Place): nat {
    match at
    case AtPeer(p) => if p in s.agents then 2 * |s.agents[p].inbox| + |s.agents[p].up| + 1 else 0
    case Forwarded(p) => if p in s.agents then |s.agents[p].up| + 1 else 0
    case Settled(_) => 1
  }

  predicate Carries(step: Step) {
    step.Relay? || step.Serve? || step.Read?
  }

  lemma ServeAndRead(s: Sys, p: Connection, i: nat, id: PayId) returns (steps: seq<Step>)
    requires Inv(s) && p in s.sessions && p in s.agents && i < |s.agents[p].up|
    requires s.agents[p].up[i].id == Some(id) && NoExit(s.agents[p].up[..i])
    requires id.client in s.agents && s.agents[id.client].main == AwaitPay(id)
    ensures Run(s, steps) && |steps| == i + 2 && forall k | 0 <= k < |steps| :: Carries(steps[k])
    ensures var s' := After(s, steps);
      id in s'.answers && id.client in s'.agents && s'.agents[id.client].main.Menu?
  {
    hide Inv, Run, After, NoExit;
    ServeUntil(s, p, i, id);
    var s' := After(s, Repeat(i + 1, Serve(p)));
    var last := ReadLast(s', id);
    RunAppend(s, Repeat(i + 1, Serve(p)), last);
    return Repeat(i + 1, Serve(p)) + last;
  }

  lemma ReadLast(s: Sys, id: PayId) returns (steps: seq<Step>)
    requires Inv(s) && id.client in s.agents && s.agents[id.client].main == AwaitPay(id) && s.agents[id.client].down != []
    ensures Run(s, steps) && |steps| == 1 && Carries(steps[0])
    ensures var s' := After(s, steps);
      id in s'.answers && id.client in s'.agents && s'.agents[id.client].main.Menu?
  {
    hide DataInv, LinkInv, TokenInv, LogInv, PayInv, ReplyText;
    ReadSettled(s.agents, s.sessions, s.pays, id.client);
    ReadEnds(s, id.client, id, s.pays[id].at.status);
    steps := [Read(id.client)];
    var s' := Apply(s, Read(id.client));
    assert s' == ApplyRead(s, id.client);
    hide Enabled, Apply, ApplyRead;
    assert [Read(id.client)][1..] == [];
    assert Run(s', []) && After(s', []) == s';
  }

  /** Every payer can get its answer: as long as the carrier of its payment can still
      deliver it, relaying and serving the messages ahead, and then reading, ends
      with the payer's answer, in a number of steps known in advance. */
  lemma AnswerArrives(s: Sys, c: Connection) returns (steps: seq<Step>)
    requires Reachable(s) && c in s.agents && s.agents[c].main.AwaitPay? && Deliverable(s, s.agents[c].main.id)
    ensures var id := s.agents[c].main.id;
      && Run(s, steps) && |steps| <= Distance(s, s.pays[id].at)
      && (forall k | 0 <= k < |steps| :: Carries(steps[k]))
      && var s' := After(s, steps);
         id in s'.answers && c in s'.agents && s'.agents[c].main.Menu?
  {
    hide Reachable, DataInv, LinkInv, TokenInv, LogInv, PayInv, Run, After, NoExit;
    InvReachable(s);
    LocatedReachable(s);
    AwaitsOwn(s.agents, s.sessions, s.pays, c);
    AwaitingPay(s.agents, s.sessions, s.pays, c);
    var id := s.agents[c].main.id;
    assert IsAt(s.agents, id, s.pays[id].at);
    hide Located, Inv;
    match s.pays[id].at
    case AtPeer(p) =>
      var i: nat :| i < |s.agents[p].inbox| && s.agents[p].inbox[i].id == Some(id);
      steps := RelayServeRead(s, p, i, id);
    case Forwarded(p) =>
      var i: nat :| i < |s.agents[p].up| && s.agents[p].up[i].id == Some(id);
      steps := ServeAndRead(s, p, i, id);
    case Settled(_) =>
      steps := ReadLast(s, id);
  }

  lemma RelayServeRead(s: Sys, p: Connection, i: nat, id: PayId) returns (steps: seq<Step>)
    requires Inv(s) && p in s.sessions && p in s.agents && !s.agents[p].main.Gone?
    requires i < |s.agents[p].inbox| && s.agents[p].inbox[i].id == Some(id) && NoExit(s.agents[p].up)
    requires id.client in s.agents && s.agents[id.client].main == AwaitPay(id)
    ensures Run(s, steps) && |steps| == |s.agents[p].up| + 2 * i + 3 && forall k | 0 <= k < |steps| :: Carries(steps[k])
    ensures var s' := After(s, steps);
      id in s'.answers && id.client in s'.agents && s'.agents[id.client].main.Menu?
  {
    hide Inv, Run, After, NoExit, Repeat, Carries;
    var a := s.agents[p];
    RelayUntil(s, p, i);
    var s' := After(s, Repeat(i + 1, Relay(p)));
    var n := |a.up| + i;
    assert s'.agents[p].up[n] == a.inbox[i];
    assert s'.agents[p].up[..n] == a.up + a.inbox[..i];
    NoExitAhead(s, p, i);
    assert SameControl(s.agents, s'.agents);
    var rest := ServeAndRead(s', p, n, id);
    RunAppend(s, Repeat(i + 1, Relay(p)), rest);
    RepeatCarries(i + 1, Relay(p), rest);
    return Repeat(i + 1, Relay(p)) + rest;
  }

  lemma RepeatCarries(n: nat, step: Step, rest: seq<Step>)
    requires Carries(step) && forall k | 0 <= k < |rest| :: Carries(rest[k])
    ensures |Repeat(n, step)| == n && forall k | 0 <= k < n + |rest| :: Carries((Repeat(n, step) + rest)[k])
  {
  }

  // ---------------------------------------------------------------- a client's whole life

  lemma ReachAfter(s: Sys, steps: seq<Step>)
    requires Reachable(s) && Run(s, steps)
    ensures Reachable(After(s, steps))
  {
    hide Enabled, Apply;
    var before :| Run(INIT, before) && After(INIT, before) == s;
    RunAppend(INIT, before, steps);
  }

  lemma ConnectRuns(s: Sys, c: Connection, ip: string, port: int)
    requires Reachable(s) && c !in s.agents
    requires forall d | d in s.sessions :: s.sessions[d].ip != ip || s.sessions[d].port != port
    ensures var s' := s.(agents := s.agents[c := FRESH_AGENT], sessions := s.sessions[c := Session("", ip, port)]);
      Run(s, [Connect(c, ip, port)]) && After(s, [Connect(c, ip, port)]) == s' && Reachable(s')
  {
    hide Reachable;
    KnownSessions(s);
    var s' := s.(agents := s.agents[c := FRESH_AGENT], sessions := s.sessions[c := Session("", ip, port)]);
    assert Enabled(s, Connect(c, ip, port)) && Apply(s, Connect(c, ip, port)) == s';
    hide Enabled, Apply;
    assert [Connect(c, ip, port)][1..] == [];
    assert Run(s', []) && After(s', []) == s';
    ReachAfter(s, [Connect(c, ip, port)]);
  }

  lemma KnownSessions(s: Sys)
    requires Reachable(s)
    ensures s.sessions.Keys <= s.agents.Keys && UniqueNames(s.rows)
  {
    hide Reachable, Linked, TokenInv, LogInv, PayInv, IndexInv, LedgerRuns.BookInv;
    InvReachable(s);
    DataRows(s);
  }

  /** Whoever connects from a free address can register a new name and log in: it
      then has an online row with 10000 at that address. */
  lemma NewClientLogsIn(s: Sys, c: Connection, ip: string, port: int, name: string, privatePort: nat)
    returns (steps: seq<Step>)
    requires Reachable(s) && c !in s.agents
    requires forall d | d in s.sessions :: s.sessions[d].ip != ip || s.sessions[d].port != port
    requires NamesOk(Register(name)) && name != "REGISTER" && forall row | row in s.rows :: row.username != name
    ensures Run(s, steps)
    ensures var s' := After(s, steps);
      && Reachable(s') && c in s'.agents && s'.agents[c].main.Menu? && s'.agents[c].open && s'.agents[c].name == name
      && s'.agents[c].up == [] && s'.agents[c].inbox == [] && c in s'.sessions
      && Client(name, ip, port, privatePort, 1, 10000) in s'.rows
  {
    hide Reachable, Run, After, Sent, NamesOk, React, SessionsAfter;
    ConnectRuns(s, c, ip, port);
    var s1 := After(s, [Connect(c, ip, port)]);
    NamesAgree(name, privatePort);
    var register, login := Register(name), Login(name, privatePort);
    UndisturbedCommand(s1, c, register);
    var more := [Send(c, register), Serve(c), Read(c)];
    var s2 := After(s1, more);
    ReachAfter(s1, more);
    RegisterReacts(s1, c, ip, port, name);
    UndisturbedCommand(s2, c, login);
    var last := [Send(c, login), Serve(c), Read(c)];
    var s3 := After(s2, last);
    ReachAfter(s2, last);
    KnownSessions(s2);
    LoginReacts(s2, c, ip, port, name, privatePort);
    RunAppend(s1, more, last);
    RunAppend(s, [Connect(c, ip, port)], more + last);
    return [Connect(c, ip, port)] + (more + last);
  }

  lemma NamesAgree(name: string, privatePort: nat)
    requires NamesOk(Register(name)) && name != "REGISTER"
    ensures NamesOk(Login(name, privatePort))
    ensures Sent(Register(name)) == AskRegister(name) && Sent(Login(name, privatePort)) == AskLogin(name, privatePort)
    ensures name != ""
  {
    SentMeans(Register(name));
    SentMeans(Login(name, privatePort));
    hide Sent;
  }

  lemma RegisterReacts(s: Sys, c: Connection, ip: string, port: int, name: string)
    requires c in s.sessions && s.sessions[c] == Session("", ip, port) && forall row | row in s.rows :: row.username != name
    ensures var r := React(s.rows, s.fds, c, ip, port, "", AskRegister(name));
      && Row(r.rows, name) == Some(Client(name, "", -1, -1, 0, 10000))
      && SessionsAfter(s.sessions, c, r) == s.sessions && !r.reply.LoginOk?
  {
    hide Row;
    LedgerRuns.RegisterEffect(s.rows, name, name);
    assert s.sessions[c := s.sessions[c]] == s.sessions;
  }

  lemma LoginReacts(s: Sys, c: Connection, ip: string, port: int, name: string, privatePort: nat)
    requires UniqueNames(s.rows) && c in s.sessions && name != ""
    requires Row(s.rows, name) == Some(Client(name, "", -1, -1, 0, 10000))
    ensures var r := React(s.rows, s.fds, c, ip, port, "", AskLogin(name, privatePort));
      && r.reply.LoginOk? && c in SessionsAfter(s.sessions, c, r)
      && Client(name, ip, port, privatePort, 1, 10000) in r.rows
  {
    hide GetAll, BalanceOf;
    LedgerRuns.LoginEffect(s.rows, name, ip, port, privatePort, name);
    hide Row, Ledger.Login, Update;
  }

  /** A logged-in client can pay: it asks for the list, whatever it knew before, and
      then any payment to any name through any idle open peer runs to its end.  If
      the receiver is online, is somebody else, and the payer can afford the positive
      amount, the answer is "transfer OK". */
  lemma LoggedInClientPays(s: Sys, c: Connection, peer: Connection, rcv: string, amount: int) returns (steps: seq<Step>)
    requires Reachable(s) && c in s.agents && s.agents[c].main.Menu? && s.agents[c].open && s.agents[c].up == []
    requires NamesOk(Pay(s.agents[c].name, amount, rcv))
    requires peer in s.agents && s.agents[peer].open && !s.agents[peer].main.Gone? && peer in s.sessions
    requires s.agents[peer].inbox == [] && s.agents[peer].up == []
    ensures Run(s, steps)
    ensures var s' := After(s, steps);
      var name, id := s.agents[c].name, PayId(c, s.agents[c].serial);
      && s'.rows == Transfer(s.rows, name, rcv, amount as real).rows
      && id in s'.answers && c in s'.agents && s'.agents[c].main.Menu?
      && (s'.answers[id] == "transfer OK\n" <==>
            name != rcv && amount > 0 && IsOnline(s.rows, rcv) && CanAfford(s.rows, name, amount as real))
  {
    hide Reachable, Run, After, Sent, NamesOk, React, SessionsAfter, Transfer, IsOnline, CanAfford, ReplyText, UniqueNames;
    UndisturbedCommand(s, c, List);
    ListReacts(s, c);
    var first := [Send(c, List), Serve(c), Read(c)];
    var s1 := After(s, first);
    ReachAfter(s, first);
    UndisturbedPayment(s1, c, peer, rcv, amount);
    var more := [SendPay(c, peer, rcv, amount), Relay(peer), Serve(peer), Read(c)];
    RunAppend(s, first, more);
    KnownSessions(s);
    TransferDecision(s.rows, s.agents[c].name, rcv, amount as real);
    OkText(Transfer(s.rows, s.agents[c].name, rcv, amount as real).status);
    AffordOnline(s.rows, s.agents[c].name, amount as real);
    return first + more;
  }

  lemma AffordOnline(rows: seq<Client>, name: string, pay: real)
    ensures CanAfford(rows, name, pay) ==> IsOnline(rows, name)
  {
  }

  /** A logged-in client that asks for the list gets one, and nothing else changes. */
  lemma ListReacts(s: Sys, c: Connection)
    requires Reachable(s) && c in s.agents && s.agents[c].main.Menu? && s.agents[c].open && c in s.sessions
    ensures NamesOk(List)
    ensures var k := s.sessions[c];
      var r := React(s.rows, s.fds, c, k.ip, k.port, k.username, Sent(List));
      && r.rows == s.rows && r.reply.Listing? && SessionsAfter(s.sessions, c, r) == s.sessions
  {
    hide Reachable, DataInv, LinkInv, TokenInv, LogInv, PayInv, Sent, IndexInv, ValidRows, Possible, RightReply, React;
    SentMeans(List);
    InvReachable(s);
    DataRows(s);
    MenuAgrees(s, c);
    SituationPossible(s, c);
    assert Possible(Served(AskList, s.rows, s.fds, s.sessions[c]));
    ListAnswer(c, Served(AskList, s.rows, s.fds, s.sessions[c]), s.sessions);
  }

  lemma ListAnswer(c: Connection, v: Served, sessions: Sessions)
    requires Possible(v) && v.req.AskList? && v.session.username != "" && c in sessions && sessions[c] == v.session
    ensures var r := React(v.rows, v.fds, c, v.session.ip, v.session.port, v.session.username, v.req);
      && r.rows == v.rows && r.reply.Listing? && SessionsAfter(sessions, c, r) == sessions
  {
    ListIsRight(c, v);
    hide GetAll, Possible, BalanceOf;
    assert sessions[c := v.session] == sessions;
  }

  lemma MenuAgrees(s: Sys, c: Connection)
    requires LinkInv(s.agents, s.sessions, s.pays) && c in s.agents && s.agents[c].main.Menu? && s.agents[c].open
    ensures c in s.sessions && s.sessions[c].username == s.agents[c].name != ""
  {
    LinkedOf(s.agents, s.sessions, s.pays, c);
  }

  /** A client that is not waiting for a payment may crash at any time; once its
      commands have been read the session ends, and logs out its user or nobody. */
  lemma CrashedClientLeaves(s: Sys, c: Connection)
    requires Reachable(s) && c in s.agents && c in s.sessions && s.agents[c].up == []
    requires !s.agents[c].main.AwaitPay? && !s.agents[c].main.Gone?
    ensures var k, steps := s.sessions[c], [Crash(c), Hangup(c)];
      && Run(s, steps)
      && var s' := After(s, steps);
         && s'.sessions == s.sessions - {c}
         && (k.username == "" ==> s'.rows == s.rows)
         && (k.username != "" ==>
               && OnlineRow(s.rows, k.username).Some?
               && s'.rows == Update(s.rows, LoggedOut(OnlineRow(s.rows, k.username).value)))
  {
    var s1 := s.(agents := s.agents[c := s.agents[c].(main := Gone)]);
    assert Enabled(s, Crash(c)) && Apply(s, Crash(c)) == s1;
    assert Enabled(s1, Hangup(c)) && Apply(s1, Hangup(c)) == ApplyHangup(s1, c);
    hide Reachable, Enabled, Apply, Update, OnlineRow, Logout;
    SessionsAgree(s, c);
    var s2 := ApplyHangup(s1, c);
    assert [Crash(c), Hangup(c)][1..] == [Hangup(c)] && [Hangup(c)][1..] == [];
    assert Run(s2, []) && After(s2, []) == s2;
    assert Run(s1, [Hangup(c)]) && After(s1, [Hangup(c)]) == s2;
  }
}
