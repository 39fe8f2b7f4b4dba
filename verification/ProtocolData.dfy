/** The server's half of the protocol: one reaction of a session keeps the
    account book and the correspondence of sessions, rows and client_fds. */
module ProtocolData {
  import opened Wrappers
  import opened Ledger
  import LedgerRuns
  import opened Commands
  import opened Server
  import opened SessionIndex
  import opened Protocol

  /** The database call behind a request, if any. */
  function CallOf(req: Request, ip: string, port: int): Option<LedgerRuns.Call> {
    match req
    case AskExit => Some(LedgerRuns.LogoutCall(ip, port))
    case AskRegister(name) => Some(LedgerRuns.RegisterCall(name))
    case AskLogin(name, privatePort) => Some(LedgerRuns.LoginCall(name, ip, port, privatePort))
    case AskTransfer(snd, amount, rcv) => Some(LedgerRuns.TransferCall(snd, rcv, amount))
    case _ => None
  }

  /** What a request does to the book. */
  function BookAfter(b: LedgerRuns.Book, call: Option<LedgerRuns.Call>): LedgerRuns.Book {
    if call.Some? then LedgerRuns.Do(b, call.value) else b
  }

  /** A reaction writes what its database call writes, and reports a transfer's status. */
  lemma ReactBook(b: LedgerRuns.Book, fds: Fds, c: Connection, k: Session, req: Request)
    ensures var r := React(b.rows, fds, c, k.ip, k.port, k.username, req);
      BookAfter(b, CallOf(req, k.ip, k.port)) ==
        LedgerRuns.Book(r.rows,
          if req.AskTransfer? && r.reply == TransferReply(TRANSFER_OK)
          then b.log + [LedgerRuns.Entry(req.snd, req.rcv, req.amount)] else b.log)
  {
  }

  lemma ReactKeepsBook(b: LedgerRuns.Book, fds: Fds, c: Connection, k: Session, req: Request)
    requires LedgerRuns.BookInv(b)
    ensures var r := React(b.rows, fds, c, k.ip, k.port, k.username, req);
      LedgerRuns.BookInv(LedgerRuns.Book(r.rows,
        if req.AskTransfer? && r.reply == TransferReply(TRANSFER_OK)
        then b.log + [LedgerRuns.Entry(req.snd, req.rcv, req.amount)] else b.log))
  {
    ReactBook(b, fds, c, k, req);
    var call := CallOf(req, k.ip, k.port);
    if call.Some? { LedgerRuns.DoInv(b, call.value); }
    hide LedgerRuns.BookInv, LedgerRuns.Do, React, CallOf;
  }

  lemma TransferKeepsSessions(rows: seq<Client>, snd: string, rcv: string, pay: real)
    requires ValidRows(rows)
    ensures SameButBalances(rows, Transfer(rows, snd, rcv, pay).rows)
  {
  }

  /** A reaction keeps the correspondence, provided that a login comes from a
      session that is not logged in yet, under a nonempty name. */
  lemma ReactKeepsIndex(rows: seq<Client>, fds: Fds, sessions: Sessions, c: Connection, req: Request)
    requires ValidRows(rows) && IndexInv(rows, fds, sessions) && c in sessions
    requires req.AskLogin? ==> sessions[c].username == "" && req.name != ""
    ensures var k := sessions[c];
      var r := React(rows, fds, c, k.ip, k.port, k.username, req);
      IndexInv(r.rows, r.fds, SessionsAfter(sessions, c, r))
  {
    var k := sessions[c];
    assert sessions[c := k] == sessions;
    hide IndexInv, ValidRows, Ledger.Register, Ledger.Login, Logout, Transfer, Erase, FdOf, GetAll, BalanceOf,
         ReactLogin, SameButBalances;
    match req
    case AskExit => IndexEnd(rows, fds, sessions, c);
    case AskList =>
    case AskRegister(name) => IndexRegister(rows, fds, sessions, name);
    case AskLogin(name, privatePort) =>
      IndexLogin(rows, fds, sessions, c, name, privatePort);
      LoginStays(rows, fds, c, k, name, privatePort);
    case AskTransfer(snd, amount, rcv) =>
      TransferKeepsSessions(rows, snd, rcv, amount);
      IndexBalances(rows, Transfer(rows, snd, rcv, amount).rows, fds, sessions);
    case Rejected =>
  }

  lemma LoginStays(rows: seq<Client>, fds: Fds, c: Connection, k: Session, name: string,
      privatePort: int)
    ensures !ReactLogin(rows, fds, c, k.ip, k.port, k.username, name, privatePort).ends
  {
  }

  /** A new connection. */
  lemma IndexConnect(rows: seq<Client>, fds: Fds, sessions: Sessions, c: Connection, ip: string,
      port: int)
    requires IndexInv(rows, fds, sessions) && c !in sessions
    requires forall d | d in sessions :: sessions[d].ip != ip || sessions[d].port != port
    ensures IndexInv(rows, fds, sessions[c := Session("", ip, port)])
  {
  }
}
