/** One iteration of the session loop of process_request in src/server.cpp: what a
    request does to the table and to client_fds, what is answered, and to whom. */
module Server {
  import opened Wrappers
  import opened Text
  import opened Ledger
  import opened Commands
  import ClientView

  /** A connection stands for its file descriptor. */
  type Connection = nat

  type Fds = seq<(string, Connection)>

  datatype Reply =
    | RegisterReply(status: int)
    | LoginFailed(status: int)
    | LoginOk(balance: int, users: seq<Client>)
    | NotLoggedIn
    | Listing(balance: int, users: seq<Client>)
    | TransferReply(status: int)
    | Bye
    | QueryError

  const QUERY_ERROR := 400

  /** The bytes of a reply. */
  function ReplyText(r: Reply): string {
    match r
    case RegisterReply(status) => ToString(status) + (if status == REGISTER_OK then " OK\n" else " FAIL\n")
    case LoginFailed(status) => ToString(status) + (if status == LOGIN_AUTH_FAIL then " AUTH_FAIL\n" else " DUPLICATE_LOGIN\n")
    case LoginOk(balance, users) => ClientView.ListReply(balance, users)
    case NotLoggedIn => "Please login first\n"
    case Listing(balance, users) => ClientView.ListReply(balance, users)
    case TransferReply(status) =>
      if status == TRANSFER_OK then "transfer OK\n"
      else if status == TRANSFER_FAIL then "transfer FAIL\n"
      else if status == TRANSFER_SENDER_BANKRUPT then "transfer FAIL due to bankruptcy\n"
      else "transfer FAIL; can't transfer to yourself\n"
    case Bye => "Bye\n"
    case QueryError => ToString(QUERY_ERROR)
  }

  /** The first entry of client_fds with that name. */
  function FdOf(fds: Fds, name: string): (r: Option<Connection>)
    ensures r.Some? ==> (name, r.value) in fds
    ensures r.None? <==> forall e | e in fds :: e.0 != name
  {
    if fds == [] then None
    else if fds[0].0 == name then Some(fds[0].1)
    else FdOf(fds[1..], name)
  }

  /** client_fds without the first entry of that name. */
  function Erase(fds: Fds, name: string): Fds {
    if fds == [] then []
    else if fds[0].0 == name then fds[1..]
    else [fds[0]] + Erase(fds[1..], name)
  }

  datatype Reaction = Reaction(
    rows: seq<Client>,
    fds: Fds,
    username: string,          // the session's user afterwards
    to: Option<Connection>,    // where the reply goes
    reply: Reply,
    ends: bool)                // the session loop is left

  function ReactLogin(rows: seq<Client>, fds: Fds, conn: Connection, ip: string, port: int, username: string,
                      name: string, privatePort: int): Reaction
  {
    var r := Ledger.Login(rows, name, ip, port, privatePort);
    if r.status == LOGIN_SUCCESS then
      Reaction(r.rows, fds + [(name, conn)], name, Some(conn),
               LoginOk(BalanceOf(r.rows, name), GetAll(r.rows, AllOnline)), false)
    else Reaction(r.rows, fds, username, Some(conn), LoginFailed(r.status), false)
  }

  /** The session of `username` on connection conn, whose peer is ip:port, reads req. */
  function React(rows: seq<Client>, fds: Fds, conn: Connection, ip: string, port: int, username: string,
                 req: Request): Reaction
  {
    match req
    case AskRegister(name) =>
      var r := Ledger.Register(rows, name);
      Reaction(r.rows, fds, username, Some(conn), RegisterReply(r.status), false)
    case AskLogin(name, privatePort) => ReactLogin(rows, fds, conn, ip, port, username, name, privatePort)
    case AskList =>
      var users := GetAll(rows, AllOnline);
      var reply := if users == [] || username == "" then NotLoggedIn else Listing(BalanceOf(rows, username), users);
      Reaction(rows, fds, username, Some(conn), reply, false)
    case AskTransfer(snd, amount, rcv) =>
      var r := Transfer(rows, snd, rcv, amount);
      Reaction(r.rows, fds, username, FdOf(fds, snd), TransferReply(r.status), false)
    case AskExit =>
      Reaction(Logout(rows, ip, port).rows, Erase(fds, username), username, Some(conn), Bye, true)
    case Rejected =>
      Reaction(rows, fds, username, Some(conn), QueryError, false)
  }

  // ---------------------------------------------------------------- the server's globals

  class Globals {
    const db: Database
    var clientFds: Fds

    constructor ()
      ensures fresh(db) && db.Valid() && db.rows == [] && clientFds == []
    {
      db := new Database();
      clientFds := [];
    }

    /** The loop that erases the session's entry. */
    method EraseFd(username: string)
      modifies this
      ensures clientFds == Erase(old(clientFds), username)
    {
      var i := 0;
      while i < |clientFds|
        invariant i <= |clientFds| && clientFds == old(clientFds)
        invariant Erase(clientFds, username) == clientFds[..i] + Erase(clientFds[i..], username)
      {
        EraseStep(clientFds, username, i);
        if clientFds[i].0 == username {
          clientFds := clientFds[..i] + clientFds[i + 1..];
          break;
        }
        i := i + 1;
      }
    }

    /** The loop that looks up the sender's connection. */
    method FindFd(name: string) returns (fd: Option<Connection>)
      ensures fd == FdOf(clientFds, name)
    {
      var i := 0;
      while i < |clientFds|
        invariant i <= |clientFds|
        invariant FdOf(clientFds, name) == FdOf(clientFds[i..], name)
      {
        assert clientFds[i..][1..] == clientFds[i + 1..];
        if clientFds[i].0 == name {
          return Some(clientFds[i].1);
        }
        i := i + 1;
      }
      return None;
    }

    /** The switch of process_request.  A transfer's sender must be registered and
        have an entry in client_fds: the code uses both unchecked. */
    method Process(conn: Connection, ip: string, port: int, user: string, req: Request)
      returns (username: string, to: Option<Connection>, response: string, ends: bool)
      requires db.Valid()
      requires user != "" ==> Row(db.rows, user).Some?
      requires req.AskTransfer? ==> Row(db.rows, req.snd).Some? && FdOf(clientFds, req.snd).Some?
      modifies this, db
      ensures db.Valid()
      ensures var r := React(old(db.rows), old(clientFds), conn, ip, port, user, req);
        && db.rows == r.rows && clientFds == r.fds
        && username == r.username && to == r.to && ends == r.ends && response == ReplyText(r.reply)
    {
      hide Ledger.Login, GetAll, Row, Transfer, ToString, Erase, FdOf, UniqueNames, ValidRows, BalanceOf;
      username, to, response, ends := user, Some(conn), "", false;
      match req {
        case AskRegister(name) =>
          var status := db.UserRegister(name);
          if status == REGISTER_OK {
            response := response + (ToString(status) + " OK\n");
          } else {
            response := response + (ToString(status) + " FAIL\n");
          }
        case AskLogin(name, privatePort) =>
          username, response := ProcessLogin(conn, ip, port, user, name, privatePort);
        case AskList =>
          var onlineUsers := db.List();
          if |onlineUsers| == 0 || username == "" {
            response := response + "Please login first\n";
          } else {
            response := ListText(username);
          }
        case AskTransfer(snd, amount, rcv) =>
          var status := db.UserTransaction(snd, rcv, amount);
          response := TransferText(status);
          to := FindFd(snd);
        case AskExit =>
          var status := db.UserLogout(ip, port);
          response := response + "Bye\n";
          EraseFd(username);
          ends := true;
        case Rejected =>
          response := ToString(QUERY_ERROR);
      }
    }

    /** The branch of process_request for a failed read: the session ends. */
    method Disconnect(ip: string, port: int, username: string) returns (onlineNum: nat)
      requires db.Valid()
      modifies this, db
      ensures db.Valid()
      ensures db.rows == Logout(old(db.rows), ip, port).rows && clientFds == Erase(old(clientFds), username)
      ensures onlineNum == |GetAll(db.rows, AllOnline)|
    {
      hide Logout, Erase, GetAll;
      var status := db.UserLogout(ip, port);
      onlineNum := db.UserNum();
      EraseFd(username);
    }

    method TransferText(status: int) returns (response: string)
      ensures response == ReplyText(TransferReply(status))
    {
      if status == TRANSFER_OK {
        response := "transfer OK\n";
      } else if status == TRANSFER_FAIL {
        response := "transfer FAIL\n";
      } else if status == TRANSFER_SENDER_BANKRUPT {
        response := "transfer FAIL due to bankruptcy\n";
      } else {
        response := "transfer FAIL; can't transfer to yourself\n";
      }
    }

    method ListText(username: string) returns (response: string)
      requires db.Valid() && Row(db.rows, username).Some?
      ensures response == ReplyText(Listing(BalanceOf(db.rows, username), GetAll(db.rows, AllOnline)))
    {
      var user := db.UserInfo(username);
      response := ToString(user.balance) + "\n";
      var n := db.UserNum();
      response := response + (ToString(n) + "\n");
      var info := db.UserListInfoLoop();
      hide UserListInfo, GetAll, ToString;
      response := response + info;
      Associate(ToString(user.balance), ToString(n), info);
    }

    method ProcessLogin(conn: Connection, ip: string, port: int, user: string, name: string, privatePort: int)
      returns (username: string, response: string)
      requires db.Valid()
      modifies this, db
      ensures db.Valid()
      ensures var r := ReactLogin(old(db.rows), old(clientFds), conn, ip, port, user, name, privatePort);
        db.rows == r.rows && clientFds == r.fds && username == r.username && response == ReplyText(r.reply)
    {
      hide Ledger.Login, GetAll, Row, ToString, UniqueNames, ValidRows, BalanceOf, ClientView.ListReply;
      username, response := user, "";
      LoginRow(db.rows, name, ip, port, privatePort);
      var status := db.UserLogin(name, ip, port, privatePort);
      if status == LOGIN_AUTH_FAIL {
        response := response + (ToString(status) + " AUTH_FAIL\n");
      } else if status == LOGIN_EXIST {
        response := response + (ToString(LOGIN_EXIST) + " DUPLICATE_LOGIN\n");
      } else if status == LOGIN_SUCCESS {
        username := name;
        clientFds := clientFds + [(username, conn)];
        response := ListText(username);
      }
    }
  }

  lemma {:induction false} EraseStep(fds: Fds, name: string, i: nat)
    requires i < |fds|
    ensures fds[..i] + Erase(fds[i..], name) ==
      if fds[i].0 == name then fds[..i] + fds[i + 1..] else fds[..i + 1] + Erase(fds[i + 1..], name)
  {
  }

  lemma Associate(a: string, b: string, c: string)
    ensures a + "\n" + (b + "\n") + c == a + "\n" + b + "\n" + c
  {
  }

  /** A login has one of three outcomes, and finds its user on success. */
  lemma {:induction false} LoginRow(rows: seq<Client>, name: string, ip: string, port: int, privatePort: int)
    requires ValidRows(rows)
    ensures var r := Ledger.Login(rows, name, ip, port, privatePort);
      && r.status in {LOGIN_AUTH_FAIL, LOGIN_EXIST, LOGIN_SUCCESS}
      && (r.status == LOGIN_SUCCESS ==> Row(r.rows, name).Some?)
  {
  }

  lemma SmallNumbers()
    ensures ToString(100) == "100" && ToString(210) == "210" && ToString(220) == "220"
    ensures ToString(230) == "230" && ToString(400) == "400"
  {
    assert NatToString(10) == "10" && NatToString(21) == "21" && NatToString(22) == "22";
    assert NatToString(23) == "23" && NatToString(40) == "40";
  }

  /** The one-line replies, byte by byte. */
  lemma FixedTexts()
    ensures ReplyText(RegisterReply(REGISTER_OK)) == "100 OK\n"
    ensures ReplyText(RegisterReply(REGISTER_FAIL)) == "210 FAIL\n"
    ensures ReplyText(LoginFailed(LOGIN_AUTH_FAIL)) == "220 AUTH_FAIL\n"
    ensures ReplyText(LoginFailed(LOGIN_EXIST)) == "230 DUPLICATE_LOGIN\n"
    ensures ReplyText(NotLoggedIn) == "Please login first\n"
    ensures ReplyText(Bye) == "Bye\n" && ReplyText(QueryError) == "400"
  {
    hide ToString;
    SmallNumbers();
  }
}
