/** The payment protocol of src/client.cpp and src/server.cpp as a transition
    system: any number of client processes, their FIFO channels to and from the
    server, their peer sockets, the server's sessions, client_fds and the account
    table.  To pay, a client hands the transfer to some peer, whose receive thread
    forwards it on its own connection; the server answers the payer.

    A step is one action of one thread.  What the history variables `pays`, `log`,
    `answers`, `served` and `judged` record has no influence on any step. */
module Protocol {
  import opened Wrappers
  import opened Ledger
  import LedgerRuns
  import opened Commands
  import opened Server
  import opened SessionIndex
  import ClientView

  /** A payment: the paying connection and how many payments it made before. */
  datatype PayId = PayId(client: Connection, serial: nat)

  /** A command under way to the server, or to the peer that will forward it. */
  datatype Up = Up(req: Request, id: Option<PayId>)

  /** A reply under way to a client. */
  datatype Down = Down(reply: Reply, id: Option<PayId>)

  /** What the main thread of a client does: show the menu, wait for the reply to
      a command, wait for the reply to its payment, or nothing any more. */
  datatype Main =
    | Menu
    | Await(cmd: Command)
    | AwaitPay(id: PayId)
    | Gone

  /** A client process. */
  datatype Agent = Agent(
    main: Main,
    name: string,
    open: bool,          // client_server_open
    knowsPeers: bool,    // peer_list has been filled
    serial: nat,         // payments made
    inbox: seq<Up>,      // accepted on the peer socket, not yet forwarded
    up: seq<Up>,
    down: seq<Down>)

  const FRESH_AGENT := Agent(Menu, "", false, false, 0, [], [], [])

  type Agents = map<Connection, Agent>

  datatype Place = AtPeer(peer: Connection) | Forwarded(relay: Connection) | Settled(status: int)

  /** A payment as it was sent, and how far it has come. */
  datatype Payment = Payment(req: Request, at: Place)

  type Payments = map<PayId, Payment>

  /** An accepted transfer. */
  datatype Settlement = Settlement(id: Option<PayId>, entry: LedgerRuns.Entry)

  /** What a session had before it when it answered a command of its own client. */
  datatype Served = Served(req: Request, rows: seq<Client>, fds: Fds, session: Session)

  datatype Sys = Sys(
    agents: Agents,
    sessions: Sessions,
    rows: seq<Client>,
    fds: Fds,
    pays: Payments,
    log: seq<Settlement>,
    answers: map<PayId, string>,   // what the payer read as the reply
    served: map<Connection, Served>,   // for the client's last own command
    judged: map<PayId, seq<Client>>)   // the table on which a payment was decided

  const INIT := Sys(map[], map[], [], [], map[], [], map[], map[], map[])

  datatype Step =
    | Connect(c: Connection, ip: string, port: int)
    | Send(c: Connection, cmd: Command)
    | SendPay(c: Connection, peer: Connection, rcv: string, amount: int)
    | Relay(c: Connection)
    | Serve(c: Connection)
    | Hangup(c: Connection)
    | Read(c: Connection)
    | Crash(c: Connection)

  /** The request that the server understands when a client prints cmd. */
  function Sent(cmd: Command): Request
    requires NamesOk(cmd)
  {
    CommandRoundTrip(cmd);
    Understand(ParseCommand(Print(cmd))).value
  }

  /** The client's test for a successful login. */
  predicate Accepted(r: Reply) {
    |ClientView.Lines(ReplyText(r))| > 2
  }

  /** The session of connection c is live and a command has arrived. */
  predicate CanServe(s: Sys, c: Connection) {
    c in s.sessions && c in s.agents && s.agents[c].up != []
  }

  predicate Enabled(s: Sys, step: Step) {
    match step
    case Connect(c, ip, port) =>
      // live connections have distinct endpoints
      c !in s.agents && c !in s.sessions &&
      forall d | d in s.sessions :: s.sessions[d].ip != ip || s.sessions[d].port != port
    case Send(c, cmd) =>
      c in s.agents && s.agents[c].main.Menu? && !cmd.Pay? && NamesOk(cmd) && (cmd.Login? ==> !s.agents[c].open)
    case SendPay(c, peer, rcv, amount) =>
      // the peer is any client whose peer socket is open
      && c in s.agents && s.agents[c].main.Menu? && s.agents[c].knowsPeers
      && NamesOk(Pay(s.agents[c].name, amount, rcv))
      && peer in s.agents && s.agents[peer].open && !s.agents[peer].main.Gone?
    case Relay(c) => c in s.agents && !s.agents[c].main.Gone? && s.agents[c].inbox != []
    case Serve(c) => CanServe(s, c)
    case Hangup(c) => c in s.sessions && c in s.agents && s.agents[c].main.Gone? && s.agents[c].up == []
    case Read(c) => c in s.agents && s.agents[c].down != [] && (s.agents[c].main.Await? || s.agents[c].main.AwaitPay?)
    case Crash(c) => c in s.agents && !s.agents[c].main.AwaitPay? && !s.agents[c].main.Gone?
  }

  // ---------------------------------------------------------------- the client's steps

  /** register_user and login_server also set the client's name. */
  function AfterSend(a: Agent, cmd: Command): Agent
    requires NamesOk(cmd)
  {
    var name :=
      match cmd
      case Register(n) => if a.open then a.name else n
      case Login(n, _) => n
      case _ => a.name;
    a.(main := Await(cmd), name := name, up := a.up + [Up(Sent(cmd), None)])
  }

  function AfterRead(a: Agent): Agent
    requires a.down != []
  {
    var reply, rest := a.down[0].reply, a.down[1..];
    match a.main
    case Await(Exit) => a.(main := Gone, down := rest)
    case Await(Login(_, _)) => a.(main := Menu, open := a.open || Accepted(reply), down := rest)
    case Await(List) => a.(main := Menu, knowsPeers := a.knowsPeers || reply != NotLoggedIn, down := rest)
    case _ => a.(main := Menu, down := rest)
  }

  function PaymentOf(a: Agent, rcv: string, amount: int): Request
    requires NamesOk(Pay(a.name, amount, rcv))
  {
    Sent(Pay(a.name, amount, rcv))
  }

  function Payer(a: Agent, id: PayId): Agent {
    a.(main := AwaitPay(id), serial := a.serial + 1)
  }

  /** A payment arrives on a peer socket. */
  function Handed(agents: Agents, peer: Connection, u: Up): Agents
    requires peer in agents
  {
    agents[peer := agents[peer].(inbox := agents[peer].inbox + [u])]
  }

  function ApplySendPay(s: Sys, c: Connection, peer: Connection, rcv: string, amount: int): Sys
    requires Enabled(s, SendPay(c, peer, rcv, amount))
  {
    var a := s.agents[c];
    var id, req := PayId(c, a.serial), PaymentOf(a, rcv, amount);
    s.(agents := Handed(s.agents[c := Payer(a, id)], peer, Up(req, Some(id))),
       pays := s.pays[id := Payment(req, AtPeer(peer))])
  }

  /** The receive thread takes a message and forwards it. */
  function ForwardNext(agents: Agents, c: Connection): Agents
    requires c in agents && agents[c].inbox != []
  {
    var a := agents[c];
    agents[c := a.(inbox := a.inbox[1..], up := a.up + [a.inbox[0]])]
  }

  function Placed(pays: Payments, id: Option<PayId>, at: Place): Payments {
    if id.Some? && id.value in pays then pays[id.value := pays[id.value].(at := at)] else pays
  }

  function ApplyRelay(s: Sys, c: Connection): Sys
    requires Enabled(s, Relay(c))
  {
    s.(agents := ForwardNext(s.agents, c), pays := Placed(s.pays, s.agents[c].inbox[0].id, Forwarded(c)))
  }

  function ApplyRead(s: Sys, c: Connection): Sys
    requires Enabled(s, Read(c))
  {
    var a := s.agents[c];
    s.(agents := s.agents[c := AfterRead(a)],
       answers := if a.main.AwaitPay? then s.answers[a.main.id := ReplyText(a.down[0].reply)] else s.answers)
  }

  // ---------------------------------------------------------------- the server's steps

  /** What the session of connection c makes of the next command. */
  function Reacts(s: Sys, c: Connection): Reaction
    requires CanServe(s, c)
  {
    var k := s.sessions[c];
    React(s.rows, s.fds, c, k.ip, k.port, k.username, s.agents[c].up[0].req)
  }

  function TakeNext(agents: Agents, c: Connection): Agents
    requires c in agents && agents[c].up != []
  {
    agents[c := agents[c].(up := agents[c].up[1..])]
  }

  function Deliver(agents: Agents, to: Option<Connection>, d: Down): Agents {
    if to.Some? && to.value in agents
    then agents[to.value := agents[to.value].(down := agents[to.value].down + [d])] else agents
  }

  function Settle(pays: Payments, id: Option<PayId>, reply: Reply): Payments {
    if reply.TransferReply? then Placed(pays, id, Settled(reply.status)) else pays
  }

  function Record(log: seq<Settlement>, u: Up, reply: Reply): seq<Settlement> {
    if reply == TransferReply(TRANSFER_OK) && u.req.AskTransfer?
    then log + [Settlement(u.id, LedgerRuns.Entry(u.req.snd, u.req.rcv, u.req.amount))] else log
  }

  function SessionsAfter(sessions: Sessions, c: Connection, r: Reaction): Sessions
    requires c in sessions
  {
    if r.ends then sessions - {c} else sessions[c := sessions[c].(username := r.username)]
  }

  function ApplyServe(s: Sys, c: Connection): Sys
    requires CanServe(s, c)
  {
    var u, r := s.agents[c].up[0], Reacts(s, c);
    s.(agents := Deliver(TakeNext(s.agents, c), r.to, Down(r.reply, u.id)),
       sessions := SessionsAfter(s.sessions, c, r),
       rows := r.rows,
       fds := r.fds,
       pays := Settle(s.pays, u.id, r.reply),
       log := Record(s.log, u, r.reply),
       served := if u.id.None? then s.served[c := Served(u.req, s.rows, s.fds, s.sessions[c])] else s.served,
       judged := if u.id.Some? then s.judged[u.id.value := s.rows] else s.judged)
  }

  /** The session's read fails because the client is gone. */
  function ApplyHangup(s: Sys, c: Connection): Sys
    requires Enabled(s, Hangup(c))
  {
    var k := s.sessions[c];
    s.(rows := Logout(s.rows, k.ip, k.port).rows, fds := Erase(s.fds, k.username), sessions := s.sessions - {c})
  }

  // ---------------------------------------------------------------- runs

  function Apply(s: Sys, step: Step): Sys
    requires Enabled(s, step)
  {
    match step
    case Connect(c, ip, port) =>
      s.(agents := s.agents[c := FRESH_AGENT], sessions := s.sessions[c := Session("", ip, port)])
    case Send(c, cmd) => s.(agents := s.agents[c := AfterSend(s.agents[c], cmd)])
    case SendPay(c, peer, rcv, amount) => ApplySendPay(s, c, peer, rcv, amount)
    case Relay(c) => ApplyRelay(s, c)
    case Serve(c) => ApplyServe(s, c)
    case Hangup(c) => ApplyHangup(s, c)
    case Read(c) => ApplyRead(s, c)
    case Crash(c) => s.(agents := s.agents[c := s.agents[c].(main := Gone)])
  }

  ghost predicate Run(s: Sys, steps: seq<Step>)
    decreases |steps|
  {
    steps == [] || (Enabled(s, steps[0]) && Run(Apply(s, steps[0]), steps[1..]))
  }

  ghost function After(s: Sys, steps: seq<Step>): Sys
    requires Run(s, steps)
    decreases |steps|
  {
    if steps == [] then s else After(Apply(s, steps[0]), steps[1..])
  }

  /** Some run from a reset server without clients leads to s. */
  ghost predicate Reachable(s: Sys) {
    exists steps :: Run(INIT, steps) && After(INIT, steps) == s
  }
}
