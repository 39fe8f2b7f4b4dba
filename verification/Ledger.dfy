/** The account table of src/Database.cpp.  The table is the sequence of rows in
    insertion order with `username` as primary key.  Balances are integers and
    amounts are reals; an assignment back to an integer truncates toward zero. */
module Ledger {
  import opened Wrappers
  import opened Text

  // ---------------------------------------------------------------- status codes

  const REGISTER_OK := 100
  const REGISTER_FAIL := 210
  const LOGIN_SUCCESS := 110
  const LOGIN_AUTH_FAIL := 220
  const LOGIN_EXIST := 230
  const LOGOUT_SUCCESS := 120
  const LOGOUT_FAIL := 250
  const TRANSFER_OK := 130
  const TRANSFER_FAIL := 260
  const TRANSFER_SENDER_BANKRUPT := 270
  const TRANSFER_SELF_FAIL := 280

  const INITIAL_BALANCE := 10000

  // ---------------------------------------------------------------- the table

  datatype Client = Client(
    username: string,
    ip: string,
    publicPort: int,
    privatePort: int,
    onlineStatus: int,
    balance: int)

  /** The where-clauses that the program uses. */
  datatype Query =
    | ByName(name: string)
    | OnlineByName(name: string)
    | OnlineAt(ip: string, port: int)
    | AllOnline

  predicate Matches(q: Query, c: Client) {
    match q
    case ByName(name) => c.username == name
    case OnlineByName(name) => c.username == name && c.onlineStatus == 1
    case OnlineAt(ip, port) => c.ip == ip && c.publicPort == port && c.onlineStatus == 1
    case AllOnline => c.onlineStatus == 1
  }

  /** storage.get_all: the matching rows, in table order. */
  function GetAll(rows: seq<Client>, q: Query): (found: seq<Client>)
    ensures forall c :: c in found <==> c in rows && Matches(q, c)
  {
    if rows == [] then []
    else (if Matches(q, rows[0]) then [rows[0]] else []) + GetAll(rows[1..], q)
  }

  /** storage.update: the row with the same primary key is replaced. */
  function Update(rows: seq<Client>, c: Client): (rows': seq<Client>)
    ensures |rows'| == |rows|
    ensures forall k | 0 <= k < |rows| :: rows'[k] == if rows[k].username == c.username then c else rows[k]
  {
    seq(|rows|, k requires 0 <= k < |rows| => if rows[k].username == c.username then c else rows[k])
  }

  /** `username` is the primary key. */
  ghost predicate UniqueNames(rows: seq<Client>) {
    forall i, j | 0 <= i < j < |rows| :: rows[i].username != rows[j].username
  }

  /** The row of a user. */
  function Row(rows: seq<Client>, name: string): (r: Option<Client>)
    ensures r.Some? ==> r.value in rows && r.value.username == name
    ensures r.None? ==> forall c | c in rows :: c.username != name
  {
    if rows == [] then None
    else if rows[0].username == name then Some(rows[0])
    else Row(rows[1..], name)
  }

  function OnlineRow(rows: seq<Client>, name: string): (r: Option<Client>) {
    var r := Row(rows, name);
    if r.Some? && r.value.onlineStatus == 1 then r else None
  }

  function BalanceOf(rows: seq<Client>, name: string): int {
    var r := Row(rows, name);
    if r.Some? then r.value.balance else 0
  }

  // ---------------------------------------------------------------- arithmetic

  /** Conversion of a double to int (C++17 [conv.fpint]). */
  function Trunc(x: real): int {
    if x >= 0.0 then x.Floor else -((-x).Floor)
  }

  function Ceil(x: real): int {
    -((-x).Floor)
  }

  // ---------------------------------------------------------------- operations

  datatype Outcome = Outcome(rows: seq<Client>, status: int)

  function Register(rows: seq<Client>, name: string): Outcome {
    if Row(rows, name).Some? then Outcome(rows, REGISTER_FAIL)
    else Outcome(rows + [Client(name, "", -1, -1, 0, INITIAL_BALANCE)], REGISTER_OK)
  }

  function Login(rows: seq<Client>, name: string, ip: string, publicPort: int, privatePort: int): Outcome {
    match Row(rows, name)
    case None => Outcome(rows, LOGIN_AUTH_FAIL)
    case Some(user) =>
      if user.onlineStatus == 1 then Outcome(rows, LOGIN_EXIST)
      else
        Outcome(Update(rows, user.(ip := ip, publicPort := publicPort, privatePort := privatePort, onlineStatus := 1)),
                LOGIN_SUCCESS)
  }

  function LoggedOut(c: Client): Client {
    c.(ip := "", publicPort := -1, privatePort := -1, onlineStatus := 0)
  }

  function Logout(rows: seq<Client>, ip: string, publicPort: int): Outcome {
    var found := GetAll(rows, OnlineAt(ip, publicPort));
    if |found| != 1 then Outcome(rows, LOGOUT_FAIL)
    else Outcome(Update(rows, LoggedOut(found[0])), LOGOUT_SUCCESS)
  }

  /** The sender pays the amount rounded up, the receiver gets it rounded down. */
  function Debited(c: Client, pay: real): Client {
    c.(balance := c.balance - Ceil(pay))
  }

  function Credited(c: Client, pay: real): Client {
    c.(balance := c.balance + pay.Floor)
  }

  function TransferStatus(rows: seq<Client>, snd: string, rcv: string, pay: real): int {
    if snd == rcv then TRANSFER_SELF_FAIL
    else if pay <= 0.0 then TRANSFER_FAIL
    else if OnlineRow(rows, snd).None? || OnlineRow(rows, rcv).None? then TRANSFER_FAIL
    else if OnlineRow(rows, snd).value.balance as real < pay then TRANSFER_SENDER_BANKRUPT
    else TRANSFER_OK
  }

  function Transfer(rows: seq<Client>, snd: string, rcv: string, pay: real): (r: Outcome) {
    var status := TransferStatus(rows, snd, rcv, pay);
    if status != TRANSFER_OK then Outcome(rows, status)
    else
      var paid := Update(rows, Debited(OnlineRow(rows, snd).value, pay));
      Outcome(Update(paid, Credited(OnlineRow(rows, rcv).value, pay)), TRANSFER_OK)
  }

  // ---------------------------------------------------------------- printing

  function RowLine(c: Client): string {
    c.username + "#" + c.ip + "#" + ToString(c.privatePort)
  }

  /** user_list_info: one line for each user. */
  function UserListInfo(users: seq<Client>): string {
    if users == [] then "" else RowLine(users[0]) + "\n" + UserListInfo(users[1..])
  }

  // ---------------------------------------------------------------- lemmas on the table

  lemma {:induction false} RowAt(rows: seq<Client>, k: nat)
    requires UniqueNames(rows) && k < |rows|
    ensures Row(rows, rows[k].username) == Some(rows[k])
  {
  }

  /** With a primary key, a query by name finds the user's row or nothing. */
  lemma {:induction false} ByNameFindsRow(rows: seq<Client>, name: string)
    requires UniqueNames(rows)
    ensures GetAll(rows, ByName(name)) == if Row(rows, name).Some? then [Row(rows, name).value] else []
    ensures GetAll(rows, OnlineByName(name)) == if OnlineRow(rows, name).Some? then [OnlineRow(rows, name).value] else []
  {
    if rows != [] {
      ByNameFindsRow(rows[1..], name);
      if rows[0].username == name {
        forall c | c in rows[1..] ensures c.username != name {
          var i :| 0 <= i < |rows[1..]| && rows[1..][i] == c;
          assert rows[i + 1] == c;
        }
      }
    }
  }

  lemma UpdateKeepsNames(rows: seq<Client>, c: Client)
    requires UniqueNames(rows)
    ensures UniqueNames(Update(rows, c))
    ensures forall k | 0 <= k < |rows| :: Update(rows, c)[k].username == rows[k].username
  {
  }

  /** Reading after an update. */
  lemma {:induction false} RowAfterUpdate(rows: seq<Client>, c: Client, name: string)
    requires UniqueNames(rows) && Row(rows, c.username).Some?
    ensures Row(Update(rows, c), name) == if name == c.username then Some(c) else Row(rows, name)
  {
  }

  /** What truncating assignment does to the two balances of a covered transfer. */
  lemma TruncateBalances(sender: int, receiver: int, pay: real)
    requires 0.0 < pay <= sender as real && 0 <= receiver
    ensures Trunc(sender as real - pay) == sender - Ceil(pay)
    ensures Trunc(receiver as real + pay) == receiver + pay.Floor
    ensures 0 <= sender - Ceil(pay) && 0 <= pay.Floor <= Ceil(pay) <= pay.Floor + 1
    ensures Ceil(pay) == pay.Floor <==> pay.Floor as real == pay
  {
  }

  /** Primary key and sane balances. */
  ghost predicate ValidRows(rows: seq<Client>) {
    UniqueNames(rows) && forall c | c in rows :: c.balance >= 0
  }

  lemma UpdateValid(rows: seq<Client>, c: Client)
    requires ValidRows(rows) && c.balance >= 0
    ensures ValidRows(Update(rows, c))
  {
  }

  /** The truncating assignments of user_transaction write the rows of Transfer. */
  lemma TransferTruncates(rows: seq<Client>, snd: string, rcv: string, pay: real)
    requires ValidRows(rows) && TransferStatus(rows, snd, rcv, pay) == TRANSFER_OK
    ensures var sender, receiver := OnlineRow(rows, snd).value, OnlineRow(rows, rcv).value;
      Transfer(rows, snd, rcv, pay) ==
        Outcome(Update(Update(rows, sender.(balance := Trunc(sender.balance as real - pay))),
                       receiver.(balance := Trunc(receiver.balance as real + pay))), TRANSFER_OK)
  {
    var sender, receiver := OnlineRow(rows, snd).value, OnlineRow(rows, rcv).value;
    TruncateBalances(sender.balance, receiver.balance, pay);
    hide Update, Trunc, Ceil, Row, OnlineRow;
    assert sender.(balance := Trunc(sender.balance as real - pay)) == Debited(sender, pay);
    assert receiver.(balance := Trunc(receiver.balance as real + pay)) == Credited(receiver, pay);
  }

  lemma TransferValid(rows: seq<Client>, snd: string, rcv: string, pay: real)
    requires ValidRows(rows)
    ensures ValidRows(Transfer(rows, snd, rcv, pay).rows)
  {
  }

  lemma InfoStep(users: seq<Client>, i: nat, res: string, line: string)
    requires i < |users| && line == RowLine(users[i])
    ensures res + UserListInfo(users[i..]) == (res + (line + "\n")) + UserListInfo(users[i + 1..])
  {
  }

  // ---------------------------------------------------------------- class Database

  class Database {
    var rows: seq<Client>

    /** Primary key and sane balances, kept by every method. */
    ghost predicate Valid()
      reads this
    {
      ValidRows(rows)
    }

    /** The constructor with reset. */
    constructor ()
      ensures Valid() && rows == []
    {
      rows := [];
    }

    method UserRegister(username: string) returns (status: int)
      requires Valid()
      modifies this
      ensures Valid() && Outcome(rows, status) == Register(old(rows), username)
    {
      var checkUser := GetAll(rows, ByName(username));
      ByNameFindsRow(rows, username);
      if |checkUser| >= 1 {
        return REGISTER_FAIL;
      }
      rows := rows + [Client(username, "", -1, -1, 0, INITIAL_BALANCE)];
      return REGISTER_OK;
    }

    method UserLogin(username: string, ip: string, publicPort: int, privatePort: int) returns (status: int)
      requires Valid()
      modifies this
      ensures Valid() && Outcome(rows, status) == Login(old(rows), username, ip, publicPort, privatePort)
    {
      var checkUser := GetAll(rows, ByName(username));
      ByNameFindsRow(rows, username);
      if |checkUser| == 0 {
        return LOGIN_AUTH_FAIL;
      }
      var checkOnline := GetAll(rows, OnlineByName(username));
      if |checkOnline| == 1 {
        return LOGIN_EXIST;
      }
      var user := checkUser[0];
      user := user.(ip := ip);
      user := user.(publicPort := publicPort);
      user := user.(privatePort := privatePort);
      user := user.(onlineStatus := 1);
      UpdateValid(rows, user);
      hide GetAll, ValidRows;
      rows := Update(rows, user);
      return LOGIN_SUCCESS;
    }

    method UserLogout(ip: string, publicPort: int) returns (status: int)
      requires Valid()
      modifies this
      ensures Valid() && Outcome(rows, status) == Logout(old(rows), ip, publicPort)
    {
      var checkUser := GetAll(rows, OnlineAt(ip, publicPort));
      if |checkUser| != 1 {
        return LOGOUT_FAIL;
      }
      var user := checkUser[0];
      assert user in rows;
      user := user.(ip := "");
      user := user.(publicPort := -1);
      user := user.(privatePort := -1);
      user := user.(onlineStatus := 0);
      rows := Update(rows, user);
      return LOGOUT_SUCCESS;
    }

    method UserTransaction(snd: string, rcv: string, pay: real) returns (status: int)
      requires Valid()
      modifies this
      ensures Valid() && Outcome(rows, status) == Transfer(old(rows), snd, rcv, pay)
    {
      if pay <= 0.0 || snd == rcv {
        if snd == rcv {
          return TRANSFER_SELF_FAIL;
        }
        return TRANSFER_FAIL;
      }
      var senderResult := GetAll(rows, OnlineByName(snd));
      var receiverResult := GetAll(rows, OnlineByName(rcv));
      ByNameFindsRow(rows, snd);
      ByNameFindsRow(rows, rcv);
      hide GetAll, Update, Row, OnlineRow, Trunc, Ceil;
      if |senderResult| == 1 && |receiverResult| == 1 {
        assert OnlineRow(rows, snd) == Some(senderResult[0]) && OnlineRow(rows, rcv) == Some(receiverResult[0]);
        status := Settle(senderResult[0], receiverResult[0], pay);
      } else {
        status := TRANSFER_FAIL;
      }
    }

    /** The inner branch of user_transaction, once both rows have been read. */
    method Settle(senderRow: Client, receiverRow: Client, pay: real) returns (status: int)
      requires Valid() && 0.0 < pay && senderRow.username != receiverRow.username
      requires OnlineRow(rows, senderRow.username) == Some(senderRow)
      requires OnlineRow(rows, receiverRow.username) == Some(receiverRow)
      modifies this
      ensures Valid()
      ensures Outcome(rows, status) == Transfer(old(rows), senderRow.username, receiverRow.username, pay)
    {
      hide Row, OnlineRow, Update, Trunc, Ceil;
      var sender, receiver := senderRow, receiverRow;
      if sender.balance as real - pay < 0.0 {
        return TRANSFER_SENDER_BANKRUPT;
      }
      TransferTruncates(rows, sender.username, receiver.username, pay);
      TransferValid(rows, sender.username, receiver.username, pay);
      hide ValidRows, Transfer, TransferStatus;
      sender := sender.(balance := Trunc(sender.balance as real - pay));
      receiver := receiver.(balance := Trunc(receiver.balance as real + pay));
      rows := Update(rows, sender);
      rows := Update(rows, receiver);
      return TRANSFER_OK;
    }

    /** list(true). */
    method List() returns (users: seq<Client>)
      ensures users == GetAll(rows, AllOnline)
    {
      return GetAll(rows, AllOnline);
    }

    /** user_info indexes the result of the query: the user must be registered. */
    method UserInfo(username: string) returns (user: Client)
      requires Valid() && Row(rows, username).Some?
      ensures user == Row(rows, username).value
    {
      ByNameFindsRow(rows, username);
      return GetAll(rows, ByName(username))[0];
    }

    method UserNum() returns (n: nat)
      ensures n == |GetAll(rows, AllOnline)|
    {
      var users := List();
      return |users|;
    }

    /** user_list_info accumulates the lines of the online users in a loop. */
    method UserListInfoLoop() returns (res: string)
      ensures res == UserListInfo(GetAll(rows, AllOnline))
    {
      var onlineUsers := List();
      res := "";
      var i := 0;
      while i < |onlineUsers|
        invariant i <= |onlineUsers|
        invariant UserListInfo(onlineUsers) == res + UserListInfo(onlineUsers[i..])
      {
        hide UserListInfo;
        var user := onlineUsers[i];
        var line := user.username + "#" + user.ip + "#" + ToString(user.privatePort);
        InfoStep(onlineUsers, i, res, line);
        res := res + (line + "\n");
        i := i + 1;
      }
    }
  }
}
