/** The reply that a client finds on its channel is the one that its session
    produced for the command that the client is waiting for. */
module ProtocolReplies {
  import opened Wrappers
  import opened Ledger
  import opened Commands
  import opened Server
  import opened Queries
  import opened SessionIndex
  import opened Protocol
  import opened ProtocolInvariants
  import opened ProtocolSteps

  /** What process_request answers to a command in the situation v. */
  function ReplyTo(c: Connection, v: Served): Reply {
    React(v.rows, v.fds, c, v.session.ip, v.session.port, v.session.username, v.req).reply
  }

  /** The user for whom a client believes to be logged in. */
  function UserOf(a: Agent): string {
    if a.open then a.name else ""
  }

  /** The situation is one that can occur: a logged-in session's user is online. */
  ghost predicate Possible(v: Served) {
    UniqueNames(v.rows) && (v.session.username != "" ==> IsOnline(v.rows, v.session.username))
  }

  /** The reply under way answers the command that the client waits for, for the
      client's own user. */
  ghost predicate Traced(c: Connection, a: Agent, served: map<Connection, Served>) {
    a.main.Await? && a.down != [] ==>
      && c in served && NamesOk(a.main.cmd)
      && served[c].req == Sent(a.main.cmd)
      && Possible(served[c]) && served[c].session.username == UserOf(a)
      && a.down[0].reply == ReplyTo(c, served[c])
  }

  ghost predicate TracedInv(agents: Agents, served: map<Connection, Served>) {
    forall c | c in agents :: Traced(c, agents[c], served)
  }

  lemma TracedControl(agents: Agents, served: map<Connection, Served>, c: Connection, a: Agent)
    requires TracedInv(agents, served) && (a.main.Await? ==> a.down == [])
    ensures TracedInv(agents[c := a], served)
  {
  }

  /** Only queues of messages for others change. */
  lemma TracedFrame(agents: Agents, agents': Agents, served: map<Connection, Served>)
    requires TracedInv(agents, served)
    requires forall c | c in agents' && agents'[c].main.Await? :: c in agents
    requires forall c | c in agents' && agents'[c].main.Await? ::
      agents'[c] == agents[c].(inbox := agents'[c].inbox, up := agents'[c].up)
    ensures TracedInv(agents', served)
  {
  }

  lemma OwnHead(a: Agent, k: Session, pays: Payments, c: Connection)
    requires Linked(c, a, Some(k), pays) && a.up != [] && a.up[0].id.None?
    ensures a.main.Gone? || a.main.Await?
    ensures a.main.Await? ==>
      NamesOk(a.main.cmd) && a.down == [] && a.up[0].req == Sent(a.main.cmd) && k.username == UserOf(a)
  {
  }

  lemma TracedServeOwn(s: Sys, c: Connection)
    requires Inv(s) && TracedInv(s.agents, s.served) && CanServe(s, c) && s.agents[c].up[0].id.None?
    ensures TracedInv(ApplyServe(s, c).agents, ApplyServe(s, c).served)
  {
    hide DataInv, LinkInv, TokenInv, LogInv, PayInv, React, Linked, Sent, NamesOk, ValidRows, Traced, TracedInv, ApplyServe;
    DataRows(s);
    SituationPossible(s, c);
    OwnIsNoTransfer(s.agents, s.sessions, s.pays, c);
    var a, k, req := s.agents[c], s.sessions[c], s.agents[c].up[0].req;
    ReactAnswers(s.rows, s.fds, c, k, req);
    LinkedOf(s.agents, s.sessions, s.pays, c);
    OwnHead(a, k, s.pays, c);
    ServedOwn(s, c);
    TracedReply(s, c);
    TracedUpdate(s.agents, s.served, c, ApplyServe(s, c).agents[c], Served(req, s.rows, s.fds, k));
  }

  /** The client and the history after its own command has been served. */
  lemma ServedOwn(s: Sys, c: Connection)
    requires CanServe(s, c) && s.agents[c].up[0].id.None? && !s.agents[c].up[0].req.AskTransfer?
    requires Reacts(s, c).to == Some(c)
    ensures var a, s' := s.agents[c], ApplyServe(s, c);
      && s'.served == s.served[c := Served(a.up[0].req, s.rows, s.fds, s.sessions[c])]
      && s'.agents == s.agents[c := a.(up := a.up[1..], down := a.down + [Down(Reacts(s, c).reply, None)])]
  {
    hide React, Settle, Record, SessionsAfter;
  }

  lemma SituationPossible(s: Sys, c: Connection)
    requires ValidRows(s.rows) && IndexInv(s.rows, s.fds, s.sessions) && c in s.sessions
    ensures forall req :: Possible(Served(req, s.rows, s.fds, s.sessions[c]))
  {
    RowsAtAddress(s.rows, s.fds, s.sessions, c);
    OnlineIff(s.rows, s.sessions[c].username, 0.0);
    hide IndexInv, GetAll, OnlineRow, IsOnline;
  }

  lemma TracedReply(s: Sys, c: Connection)
    requires CanServe(s, c) && c in ApplyServe(s, c).agents
    requires Possible(Served(s.agents[c].up[0].req, s.rows, s.fds, s.sessions[c]))
    requires var a := s.agents[c];
      ApplyServe(s, c).agents[c] == a.(up := a.up[1..], down := a.down + [Down(Reacts(s, c).reply, None)])
    requires s.agents[c].main.Await? ==>
      && NamesOk(s.agents[c].main.cmd) && s.agents[c].down == []
      && s.agents[c].up[0].req == Sent(s.agents[c].main.cmd) && s.sessions[c].username == UserOf(s.agents[c])
    ensures var v := Served(s.agents[c].up[0].req, s.rows, s.fds, s.sessions[c]);
      Traced(c, ApplyServe(s, c).agents[c], s.served[c := v])
  {
    hide React, Sent, NamesOk, ApplyServe;
  }

  lemma TracedUpdate(agents: Agents, served: map<Connection, Served>, c: Connection, a: Agent, v: Served)
    requires TracedInv(agents, served) && Traced(c, a, served[c := v])
    ensures TracedInv(agents[c := a], served[c := v])
  {
  }

  lemma TracedServePay(s: Sys, c: Connection)
    requires Inv(s) && TracedInv(s.agents, s.served) && CanServe(s, c) && s.agents[c].up[0].id.Some?
    ensures TracedInv(ApplyServe(s, c).agents, ApplyServe(s, c).served)
  {
    hide DataInv, LinkInv, TokenInv, LogInv, PayInv, TracedInv, Reacts, FdOf, Row, Settle, Record, SessionsAfter, Transfer;
    DataRows(s);
    PayerIsKnown(s, c);
    ReactsToTransfer(s, c);
    TracedFrame(s.agents, ApplyServe(s, c).agents, s.served);
  }

  lemma TracedStep(s: Sys, step: Step)
    requires Inv(s) && TracedInv(s.agents, s.served) && Enabled(s, step)
    ensures TracedInv(Apply(s, step).agents, Apply(s, step).served)
  {
    hide TracedInv, DataInv, LinkInv, TokenInv, LogInv, PayInv, Sent, Accepted, NamesOk, ApplyServe, PaymentOf;
    match step
    case Connect(c, ip, port) => TracedControl(s.agents, s.served, c, FRESH_AGENT);
    case Send(c, cmd) =>
      MenuIsQuiet(s.agents, s.sessions, s.pays, c);
      TracedControl(s.agents, s.served, c, AfterSend(s.agents[c], cmd));
    case SendPay(c, peer, rcv, amount) => TracedFrame(s.agents, Apply(s, step).agents, s.served);
    case Relay(c) => TracedFrame(s.agents, Apply(s, step).agents, s.served);
    case Serve(c) => if s.agents[c].up[0].id.None? { TracedServeOwn(s, c); } else { TracedServePay(s, c); }
    case Hangup(c) =>
    case Read(c) => TracedControl(s.agents, s.served, c, AfterRead(s.agents[c]));
    case Crash(c) => TracedControl(s.agents, s.served, c, s.agents[c].(main := Gone));
  }

  lemma MenuIsQuiet(agents: Agents, sessions: Sessions, pays: Payments, c: Connection)
    requires LinkInv(agents, sessions, pays) && c in agents && agents[c].main.Menu?
    ensures Own(agents[c].up) == [] && agents[c].down == []
  {
  }

  lemma {:induction false} TracedAfter(s: Sys, steps: seq<Step>)
    requires Inv(s) && TracedInv(s.agents, s.served) && Run(s, steps)
    ensures TracedInv(After(s, steps).agents, After(s, steps).served)
    decreases |steps|
  {
    hide Inv, TracedInv, Enabled, Apply;
    if steps != [] {
      InvStep(s, steps[0]);
      TracedStep(s, steps[0]);
      TracedAfter(Apply(s, steps[0]), steps[1..]);
    }
  }

  lemma TracedReachable(s: Sys)
    requires Reachable(s)
    ensures TracedInv(s.agents, s.served)
  {
    hide Inv;
    var steps :| Run(INIT, steps) && After(INIT, steps) == s;
    InvInit();
    TracedAfter(INIT, steps);
  }

  // ---------------------------------------------------------------- what the replies say

  /** A listing for a user: that user's balance, and everybody who is online. */
  ghost predicate OwnListing(rows: seq<Client>, user: string, reply: Reply) {
    && reply.Listing? && reply.users == GetAll(rows, AllOnline)
    && exists c :: c in rows && c.username == user && c.balance == reply.balance
  }

  /** The reply to a successful login: the user's balance as it was, and a list in
      which the user appears at the session's address and its own port. */
  ghost predicate Welcome(v: Served, reply: Reply)
    requires v.req.AskLogin?
  {
    && reply.LoginOk?
    && (exists c :: c in v.rows && c.username == v.req.name && c.balance == reply.balance)
    && (exists c :: c in reply.users && c.username == v.req.name && c.ip == v.session.ip &&
          c.privatePort == v.req.port && c.balance == reply.balance)
  }

  /** The right answer to a client's own command, in terms of the rows alone. */
  ghost predicate RightReply(v: Served, reply: Reply) {
    match v.req
    case AskExit => reply == Bye
    case AskList =>
      if v.session.username == "" then reply == NotLoggedIn else OwnListing(v.rows, v.session.username, reply)
    case AskRegister(name) =>
      reply == RegisterReply(if exists c :: c in v.rows && c.username == name then REGISTER_FAIL else REGISTER_OK)
    case AskLogin(name, _) =>
      if !exists c :: c in v.rows && c.username == name then reply == LoginFailed(LOGIN_AUTH_FAIL)
      else if IsOnline(v.rows, name) then reply == LoginFailed(LOGIN_EXIST)
      else Welcome(v, reply)
    case AskTransfer(_, _, _) => reply.TransferReply?
    case Rejected => reply == QueryError
  }

  lemma ListIsRight(c: Connection, v: Served)
    requires Possible(v) && v.req.AskList?
    ensures RightReply(v, ReplyTo(c, v))
  {
    var user := v.session.username;
    if user != "" {
      var row :| row in v.rows && row.username == user && row.onlineStatus == 1;
      assert row in GetAll(v.rows, AllOnline);
      assert Row(v.rows, user).value in v.rows;
    }
  }

  lemma LoginIsRight(c: Connection, v: Served)
    requires Possible(v) && v.req.AskLogin?
    ensures RightReply(v, ReplyTo(c, v))
  {
    var name, rows := v.req.name, v.rows;
    LoginDecision(rows, name, v.session.ip, v.session.port, v.req.port);
    hide IsOnline;
    var r := Ledger.Login(rows, name, v.session.ip, v.session.port, v.req.port);
    if r.status == LOGIN_SUCCESS {
      var old_ := Row(rows, name).value;
      var user := Client(name, v.session.ip, v.session.port, v.req.port, 1, old_.balance);
      RowAfterUpdate(rows, user, name);
      assert r.rows == Update(rows, user) && Row(r.rows, name) == Some(user);
      hide Update, GetAll;
      assert user in GetAll(r.rows, AllOnline);
    }
  }

  lemma ReactIsRight(c: Connection, v: Served)
    requires Possible(v)
    ensures RightReply(v, ReplyTo(c, v))
  {
    hide Possible, ReplyTo, RightReply;
    match v.req
    case AskList => ListIsRight(c, v);
    case AskLogin(_, _) => LoginIsRight(c, v);
    case _ => OtherIsRight(c, v);
  }

  lemma OtherIsRight(c: Connection, v: Served)
    requires !v.req.AskList? && !v.req.AskLogin?
    ensures RightReply(v, ReplyTo(c, v))
  {
    hide Transfer, Logout, Erase, FdOf;
  }

  // ---------------------------------------------------------------- what payers are told

  /** A settled payment was decided as user_transaction decides on the table it met,
      where the payer was online. */
  ghost predicate JudgedInv(pays: Payments, judged: map<PayId, seq<Client>>) {
    forall id | id in pays && pays[id].at.Settled? :: Judged(pays[id], id, judged)
  }

  ghost predicate Judged(pay: Payment, id: PayId, judged: map<PayId, seq<Client>>)
    requires pay.at.Settled?
  {
    && id in judged && UniqueNames(judged[id]) && pay.req.AskTransfer? && IsOnline(judged[id], pay.req.snd)
    && pay.at.status == Transfer(judged[id], pay.req.snd, pay.req.rcv, pay.req.amount).status
  }

  lemma JudgedPlaced(pays: Payments, judged: map<PayId, seq<Client>>, id: Option<PayId>, at: Place)
    requires JudgedInv(pays, judged) && !at.Settled?
    ensures JudgedInv(Placed(pays, id, at), judged)
  {
    hide Judged;
  }

  lemma JudgedNew(pays: Payments, judged: map<PayId, seq<Client>>, id: PayId, pay: Payment)
    requires JudgedInv(pays, judged) && !pay.at.Settled?
    ensures JudgedInv(pays[id := pay], judged)
  {
    hide Judged;
  }

  lemma JudgedSettle(pays: Payments, judged: map<PayId, seq<Client>>, id: PayId, rows: seq<Client>)
    requires JudgedInv(pays, judged) && id in pays && pays[id].req.AskTransfer?
    requires UniqueNames(rows) && IsOnline(rows, pays[id].req.snd)
    ensures var req := pays[id].req;
      var status := Transfer(rows, req.snd, req.rcv, req.amount).status;
      JudgedInv(Settle(pays, Some(id), TransferReply(status)), judged[id := rows])
  {
    hide Transfer, UniqueNames, IsOnline;
    var req := pays[id].req;
    var pays' := Settle(pays, Some(id), TransferReply(Transfer(rows, req.snd, req.rcv, req.amount).status));
    forall i | i in pays' && pays'[i].at.Settled? ensures Judged(pays'[i], i, judged[id := rows]) {
      assert i != id ==> Judged(pays[i], i, judged);
    }
  }

  lemma JudgedServePay(s: Sys, c: Connection)
    requires Inv(s) && JudgedInv(s.pays, s.judged) && CanServe(s, c) && s.agents[c].up[0].id.Some?
    ensures JudgedInv(ApplyServe(s, c).pays, ApplyServe(s, c).judged)
  {
    hide DataInv, LinkInv, TokenInv, LogInv, PayInv, JudgedInv, Reacts, Transfer, Settle, FdOf, IsOnline, SessionsAfter;
    DataRows(s);
    PayerIsKnown(s, c);
    HeadIsTransfer(s.agents, s.pays, c);
    UnsettledHead(s.agents, s.pays, c);
    ReactsToTransfer(s, c);
    var u := s.agents[c].up[0];
    SituationPossible(s, u.id.value.client);
    assert Possible(Served(u.req, s.rows, s.fds, s.sessions[u.id.value.client]));
    JudgedSettle(s.pays, s.judged, u.id.value, s.rows);
  }

  lemma JudgedServeOwn(s: Sys, c: Connection)
    requires JudgedInv(s.pays, s.judged) && CanServe(s, c) && s.agents[c].up[0].id.None?
    ensures JudgedInv(ApplyServe(s, c).pays, ApplyServe(s, c).judged)
  {
    hide JudgedInv, Reacts;
  }

  lemma JudgedStep(s: Sys, step: Step)
    requires Inv(s) && JudgedInv(s.pays, s.judged) && Enabled(s, step)
    ensures JudgedInv(Apply(s, step).pays, Apply(s, step).judged)
  {
    hide JudgedInv, DataInv, LinkInv, TokenInv, LogInv, PayInv, Sent, Accepted, NamesOk, ApplyServe, PaymentOf, Placed;
    match step
    case SendPay(c, peer, rcv, amount) =>
      JudgedNew(s.pays, s.judged, PayId(c, s.agents[c].serial), Payment(PaymentOf(s.agents[c], rcv, amount), AtPeer(peer)));
    case Relay(c) => JudgedPlaced(s.pays, s.judged, s.agents[c].inbox[0].id, Forwarded(c));
    case Serve(c) => if s.agents[c].up[0].id.None? { JudgedServeOwn(s, c); } else { JudgedServePay(s, c); }
    case _ =>
  }

  lemma {:induction false} JudgedAfter(s: Sys, steps: seq<Step>)
    requires Inv(s) && JudgedInv(s.pays, s.judged) && Run(s, steps)
    ensures JudgedInv(After(s, steps).pays, After(s, steps).judged)
    decreases |steps|
  {
    hide Inv, JudgedInv, Enabled, Apply;
    if steps != [] {
      InvStep(s, steps[0]);
      JudgedStep(s, steps[0]);
      JudgedAfter(Apply(s, steps[0]), steps[1..]);
    }
  }

  lemma JudgedReachable(s: Sys)
    requires Reachable(s)
    ensures JudgedInv(s.pays, s.judged)
  {
    hide Inv;
    var steps :| Run(INIT, steps) && After(INIT, steps) == s;
    InvInit();
    JudgedAfter(INIT, steps);
  }
}
