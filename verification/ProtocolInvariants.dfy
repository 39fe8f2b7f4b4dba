/** What every step of the payment protocol keeps: each client agrees with its
    session, each payment under way has exactly one carrier and a payer that waits
    for it, and the log, the table and client_fds agree. */
module ProtocolInvariants {
  import opened Wrappers
  import opened Ledger
  import LedgerRuns
  import opened Commands
  import opened Server
  import opened SessionIndex
  import opened Protocol
  import ClientView
  import Text

  // ---------------------------------------------------------------- a client and its session

  /** The commands that a client's main thread has under way to the server. */
  function Own(up: seq<Up>): seq<Request> {
    if up == [] then []
    else (if up[0].id.None? then [up[0].req] else []) + Own(up[1..])
  }

  function SessionOf(sessions: Sessions, c: Connection): Option<Session> {
    if c in sessions then Some(sessions[c]) else None
  }

  /** The client believes that it is logged in exactly when its session is. */
  predicate Agrees(a: Agent, k: Option<Session>) {
    && k.Some?
    && (a.open <==> k.value.username != "")
    && (a.open ==> k.value.username == a.name)
  }

  /** A reply that answers a request. */
  predicate Answers(reply: Reply, req: Request) {
    match req
    case AskExit => reply.Bye?
    case AskList => reply.NotLoggedIn? || reply.Listing?
    case AskRegister(_) => reply.RegisterReply?
    case AskLogin(_, _) =>
      || (reply.LoginFailed? && reply.status in {LOGIN_AUTH_FAIL, LOGIN_EXIST})
      || (reply.LoginOk? && reply.users != [])
    case AskTransfer(_, _, _) => reply.TransferReply?
    case Rejected => reply.QueryError?
  }

  /** The session once the reply has been sent and before the client has read it. */
  predicate Answered(a: Agent, k: Option<Session>, req: Request, d: Down) {
    && d.id.None? && Answers(d.reply, req)
    && match d.reply
       case Bye => k.None?
       case LoginOk(_, _) => !a.open && k.Some? && k.value.username == a.name && a.name != ""
       case Listing(_, _) => Agrees(a, k) && a.open
       case _ => Agrees(a, k)
  }

  predicate Waiting(a: Agent, k: Option<Session>, cmd: Command) {
    && !cmd.Pay? && NamesOk(cmd) && (cmd.Login? ==> !a.open && cmd.name == a.name)
    && ((Own(a.up) == [Sent(cmd)] && a.down == [] && Agrees(a, k)) ||
        (Own(a.up) == [] && |a.down| == 1 && Answered(a, k, Sent(cmd), a.down[0])))
  }

  predicate WaitingForPay(a: Agent, k: Option<Session>, id: PayId, pays: Payments) {
    && Own(a.up) == [] && Agrees(a, k) && a.open
    && id in pays
    && a.down == if pays[id].at.Settled? then [Down(TransferReply(pays[id].at.status), Some(id))] else []
  }

  predicate OwnOk(a: Agent, k: Option<Session>) {
    var own := Own(a.up);
    && |own| <= 1
    && (own != [] ==> !own[0].AskTransfer?)
    && (own != [] && own[0].AskLogin? ==> own[0].name != "" && (k.Some? ==> k.value.username == ""))
  }

  predicate Linked(c: Connection, a: Agent, k: Option<Session>, pays: Payments) {
    && OwnOk(a, k)
    && (a.knowsPeers ==> a.open)
    && match a.main
       case Menu => Own(a.up) == [] && a.down == [] && Agrees(a, k)
       case Await(cmd) => Waiting(a, k, cmd)
       case AwaitPay(id) => id.client == c && WaitingForPay(a, k, id, pays)
       case Gone => |Own(a.up)| + |a.down| <= 1 && forall i | 0 <= i < |a.down| :: a.down[i].id.None?
  }

  ghost predicate LinkInv(agents: Agents, sessions: Sessions, pays: Payments) {
    && sessions.Keys <= agents.Keys
    && forall c | c in agents :: Linked(c, agents[c], SessionOf(sessions, c), pays)
  }

  // ---------------------------------------------------------------- payments under way

  /** A message of a payment: what the payer sent, at its place, with the payer waiting. */
  predicate TokenOk(agents: Agents, pays: Payments, u: Up, at: Place)
    requires u.id.Some?
  {
    var id := u.id.value;
    && id in pays && pays[id] == Payment(u.req, at) && u.req.AskTransfer?
    && id.client in agents && agents[id.client].main == AwaitPay(id) && agents[id.client].name == u.req.snd
  }

  ghost predicate TokensIn(agents: Agents, pays: Payments, queue: seq<Up>, at: Place) {
    && (forall i | 0 <= i < |queue| && queue[i].id.Some? :: TokenOk(agents, pays, queue[i], at))
    && (forall i, j | 0 <= i < j < |queue| && queue[i].id.Some? :: queue[i].id != queue[j].id)
  }

  ghost predicate AllPayments(inbox: seq<Up>) {
    forall i | 0 <= i < |inbox| :: inbox[i].id.Some?
  }

  ghost predicate TokenInv(agents: Agents, pays: Payments) {
    forall p | p in agents ::
      && AllPayments(agents[p].inbox)
      && TokensIn(agents, pays, agents[p].inbox, AtPeer(p))
      && TokensIn(agents, pays, agents[p].up, Forwarded(p))
  }

  // ---------------------------------------------------------------- history

  /** How often a payment has been applied to the table. */
  ghost function Times(log: seq<Settlement>, id: PayId): nat {
    if log == [] then 0
    else Times(log[..|log| - 1], id) + if log[|log| - 1].id == Some(id) then 1 else 0
  }

  function Entries(log: seq<Settlement>): seq<LedgerRuns.Entry> {
    seq(|log|, i requires 0 <= i < |log| => log[i].entry)
  }

  /** A log entry is that of the payment it belongs to. */
  ghost predicate Recorded(pays: Payments, e: Settlement) {
    && e.id.Some? && e.id.value in pays && pays[e.id.value].req.AskTransfer?
    && var req := pays[e.id.value].req; e.entry == LedgerRuns.Entry(req.snd, req.rcv, req.amount)
  }

  predicate Applied(pays: Payments, id: PayId) {
    id in pays && pays[id].at == Settled(TRANSFER_OK)
  }

  ghost predicate LogInv(pays: Payments, log: seq<Settlement>) {
    && (forall i | 0 <= i < |log| :: Recorded(pays, log[i]))
    && (forall id :: Times(log, id) == if Applied(pays, id) then 1 else 0)
  }

  /** Each payment is of a whole amount, was made by its client, and is answered or
      still waited for. */
  ghost predicate PayInv(agents: Agents, pays: Payments, answers: map<PayId, string>) {
    && (forall id | id in pays ::
          && pays[id].req.AskTransfer? && LedgerRuns.Whole(pays[id].req.amount)
          && id.client in agents && id.serial < agents[id.client].serial
          && (id in answers || agents[id.client].main == AwaitPay(id)))
    && (forall id | id in answers ::
          && id in pays && pays[id].at.Settled?
          && answers[id] == ReplyText(TransferReply(pays[id].at.status)))
  }

  ghost predicate DataInv(s: Sys) {
    IndexInv(s.rows, s.fds, s.sessions) && LedgerRuns.BookInv(LedgerRuns.Book(s.rows, Entries(s.log)))
  }

  ghost predicate Inv(s: Sys) {
    && DataInv(s)
    && LinkInv(s.agents, s.sessions, s.pays)
    && TokenInv(s.agents, s.pays)
    && LogInv(s.pays, s.log)
    && PayInv(s.agents, s.pays, s.answers)
  }

  // ---------------------------------------------------------------- the wire

  lemma SentMeans(cmd: Command)
    requires NamesOk(cmd)
    ensures Sent(cmd) == if cmd.Login? && cmd.name == "REGISTER" then AskRegister(Text.ToString(cmd.port)) else Meaning(cmd)
  {
    CommandRoundTrip(cmd);
    hide Understand, ParseCommand, Print, Text.ToString;
  }

  lemma StatusLine(status: int, word: string)
    requires word in {" OK", " FAIL", " AUTH_FAIL", " DUPLICATE_LOGIN"}
    ensures |ClientView.Lines(Text.ToString(status) + (word + "\n"))| == 1
  {
    var t := Text.ToString(status) + word;
    NumberToken(status);
    assert Text.ToString(status) + (word + "\n") == t + "\n";
    hide Text.ToString, ClientView.Lines;
    ClientView.OneLine(t);
  }

  /** The client's login test reads the reply to a login correctly. */
  lemma AcceptedExact(reply: Reply, req: Request)
    requires Answers(reply, req) && (req.AskLogin? || req.AskRegister?)
    ensures Accepted(reply) <==> reply.LoginOk?
  {
    hide Text.ToString, ClientView.Lines, ClientView.SplitReply;
    match reply
    case RegisterReply(status) =>
      assert " OK" + "\n" == " OK\n" && " FAIL" + "\n" == " FAIL\n";
      StatusLine(status, if status == REGISTER_OK then " OK" else " FAIL");
    case LoginFailed(status) =>
      assert " AUTH_FAIL" + "\n" == " AUTH_FAIL\n" && " DUPLICATE_LOGIN" + "\n" == " DUPLICATE_LOGIN\n";
      StatusLine(status, if status == LOGIN_AUTH_FAIL then " AUTH_FAIL" else " DUPLICATE_LOGIN");
    case LoginOk(balance, users) =>
      ClientView.LinesOfReply(balance, |users|, users);
      ClientView.InfoHasLine(users);
  }

  // ---------------------------------------------------------------- each client agrees with its session

  lemma {:induction false} OwnAppend(up: seq<Up>, u: Up)
    ensures Own(up + [u]) == Own(up) + if u.id.None? then [u.req] else []
  {
    var last := if u.id.None? then [u.req] else [];
    if up == [] {
      assert up + [u] == [u] && [u][1..] == [];
      assert Own([u]) == last + Own([]);
    } else {
      var first := if up[0].id.None? then [up[0].req] else [];
      assert (up + [u])[1..] == up[1..] + [u];
      OwnAppend(up[1..], u);
      assert Own(up + [u]) == first + (Own(up[1..]) + last);
    }
  }

  /** How far payments have come, as the payer can tell. */
  predicate Alike(pays: Payments, pays': Payments, id: PayId) {
    id in pays ==>
      && id in pays' && pays[id].at.Settled? == pays'[id].at.Settled?
      && (pays[id].at.Settled? ==> pays'[id].at == pays[id].at)
  }

  /** What is forwarded for others does not concern the main thread. */
  lemma LinkedFrame(c: Connection, a: Agent, a': Agent, k: Option<Session>, pays: Payments,
      pays': Payments)
    requires Linked(c, a, k, pays)
    requires a' == a.(inbox := a'.inbox, up := a'.up) && Own(a'.up) == Own(a.up)
    requires a.main.AwaitPay? ==> Alike(pays, pays', a.main.id)
    ensures Linked(c, a', k, pays')
  {
    hide Sent, Answers, Own;
  }

  lemma SendWaits(a: Agent, k: Option<Session>, cmd: Command)
    requires Own(a.up) == [] && a.down == [] && Agrees(a, k)
    requires !cmd.Pay? && NamesOk(cmd) && (cmd.Login? ==> !a.open)
    ensures Waiting(AfterSend(a, cmd), k, cmd) && OwnOk(AfterSend(a, cmd), k)
  {
    SentMeans(cmd);
    OwnAppend(a.up, Up(Sent(cmd), None));
    hide Sent, Own, Answered;
  }

  lemma LinkedSend(c: Connection, a: Agent, k: Option<Session>, pays: Payments, cmd: Command)
    requires Linked(c, a, k, pays) && a.main.Menu? && !cmd.Pay? && NamesOk(cmd) && (cmd.Login? ==> !a.open)
    ensures Linked(c, AfterSend(a, cmd), k, pays)
  {
    hide Sent, Own, OwnOk, Waiting, Agrees, NamesOk;
    SendWaits(a, k, cmd);
  }

  lemma LinkedSendPay(c: Connection, a: Agent, a': Agent, k: Option<Session>, pays: Payments,
      pays': Payments)
    requires Linked(c, a, k, pays) && a.main.Menu? && a.knowsPeers
    requires a' == a.(main := AwaitPay(PayId(c, a.serial)), serial := a.serial + 1, inbox := a'.inbox)
    requires a'.main.id in pays' && !pays'[a'.main.id].at.Settled?
    ensures Linked(c, a', k, pays')
  {
  }

  /** The reply to a command brings the client back to its menu, in agreement. */
  lemma ReadAgrees(a: Agent, k: Option<Session>)
    requires a.main.Await? && a.down != [] && Waiting(a, k, a.main.cmd) && (a.knowsPeers ==> a.open)
    ensures var a' := AfterRead(a);
      && Own(a'.up) == [] && a'.down == [] && (a'.knowsPeers ==> a'.open)
      && if a.main.cmd.Exit? then a'.main.Gone? else a'.main.Menu? && Agrees(a', k)
  {
    var cmd, d := a.main.cmd, a.down[0];
    assert Answered(a, k, Sent(cmd), d);
    SentMeans(cmd);
    if cmd.Login? { AcceptedExact(d.reply, Sent(cmd)); }
    hide Sent, Own, Accepted, NamesOk;
  }

  lemma LinkedRead(c: Connection, a: Agent, k: Option<Session>, pays: Payments)
    requires Linked(c, a, k, pays) && a.down != [] && (a.main.Await? || a.main.AwaitPay?)
    ensures Linked(c, AfterRead(a), k, pays)
  {
    hide Own, Waiting, Accepted;
    if a.main.Await? {
      ReadAgrees(a, k);
      hide Agrees, AfterRead;
    }
  }

  lemma LinkedCrash(c: Connection, a: Agent, k: Option<Session>, pays: Payments)
    requires Linked(c, a, k, pays) && !a.main.AwaitPay?
    ensures Linked(c, a.(main := Gone), k, pays)
  {
    hide Own, Sent;
  }

  /** The session of `username` answers its own client's request. */
  lemma ReactAnswers(rows: seq<Client>, fds: Fds, c: Connection, k: Session, req: Request)
    requires ValidRows(rows) && !req.AskTransfer? && (req.AskLogin? ==> k.username == "")
    ensures var r := React(rows, fds, c, k.ip, k.port, k.username, req);
      && r.to == Some(c) && Answers(r.reply, req) && r.ends == r.reply.Bye?
      && (r.username == if r.reply.LoginOk? && req.AskLogin? then req.name else k.username)
      && (r.reply.Listing? ==> k.username != "")
  {
    hide GetAll, Row, BalanceOf, Erase, FdOf, ValidRows, Logout, Ledger.Register;
    if req.AskLogin? {
      LoginRow(rows, req.name, k.ip, k.port, req.port);
      if Ledger.Login(rows, req.name, k.ip, k.port, req.port).status == LOGIN_SUCCESS {
        ClientView.LoginListed(rows, req.name, k.ip, k.port, req.port);
      }
      hide Ledger.Login;
    }
  }

  /** The client's own command is served. */
  lemma LinkedOwn(c: Connection, a: Agent, k: Session, pays: Payments, rows: seq<Client>, fds: Fds)
    requires Linked(c, a, Some(k), pays) && a.up != [] && a.up[0].id.None? && ValidRows(rows)
    ensures var r := React(rows, fds, c, k.ip, k.port, k.username, a.up[0].req);
      && r.to == Some(c) && !r.reply.TransferReply?
      && Linked(c, a.(up := a.up[1..], down := a.down + [Down(r.reply, None)]),
                if r.ends then None else Some(k.(username := r.username)), pays)
  {
    var req := a.up[0].req;
    assert Own(a.up) == [req] + Own(a.up[1..]);
    ReactAnswers(rows, fds, c, k, req);
    if a.main.Await? { SentMeans(a.main.cmd); }
    hide Own, Sent, React, ValidRows;
  }
}
