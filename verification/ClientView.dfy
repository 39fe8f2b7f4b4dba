/** How src/client.cpp reads the server's list: the reply that LOGIN and LIST
    send, parse_list_info, find_peer_info and the test for a successful login. */
module ClientView {
  import opened Wrappers
  import opened Text
  import opened Ledger
  import Commands

  /** The reply of LIST, and of LOGIN on success: balance, number, list. */
  function ListReply(balance: int, users: seq<Client>): string {
    SplitReply(balance, |users|, users)
  }

  /** The same, when another session has changed the table between the calls that
      count and that print the online users. */
  function SplitReply(balance: int, counted: nat, listed: seq<Client>): string {
    ToString(balance) + "\n" + ToString(counted) + "\n" + UserListInfo(listed)
  }

  /** The line-oriented view of a reply. */
  function Lines(msg: string): seq<string> {
    Split(msg, '\n')
  }

  /** What the client shows of a user. */
  function Peer(c: Client): seq<string> {
    [c.username, c.ip, ToString(c.privatePort)]
  }

  /** What parse_list_info takes for granted: it converts the first two lines with
      stoi and indexes one more line for each announced user. */
  predicate Parses(msg: string) {
    var lines := Lines(msg);
    && |lines| >= 2 && Stoi(lines[0]).Some? && Stoi(lines[1]).Some?
    && 2 + Stoi(lines[1]).value <= |lines|
  }

  function Peers(users: seq<Client>): seq<seq<string>> {
    seq(|users|, i requires 0 <= i < |users| => Peer(users[i]))
  }

  /** A field that survives printing: nonempty, without '#' and newline. */
  predicate Printable(t: string) {
    IsToken(t, '#') && '\n' !in t
  }

  predicate AllPrintable(users: seq<Client>) {
    forall i | 0 <= i < |users| :: Printable(users[i].username) && Printable(users[i].ip)
  }

  // ---------------------------------------------------------------- the client's globals

  class View {
    var acctBalance: int
    var onlineNum: int
    var peerList: seq<seq<string>>

    constructor ()
      ensures acctBalance == 0 && onlineNum == 0 && peerList == []
    {
      acctBalance, onlineNum, peerList := 0, 0, [];
    }

    /** parse_list_info. */
    method ParseListInfo(msg: string)
      requires Parses(msg)
      modifies this
      ensures Some(acctBalance) == Stoi(Lines(msg)[0])
      ensures Some(onlineNum) == Stoi(Lines(msg)[1])
      ensures |peerList| == if onlineNum < 0 then 0 else onlineNum
      ensures forall k | 0 <= k < |peerList| :: peerList[k] == Split(Lines(msg)[2 + k], '#')
    {
      var tmp := SplitLoop(msg, '\n');
      acctBalance := Stoi(tmp[0]).value;
      onlineNum := Stoi(tmp[1]).value;
      peerList := [];
      var i := 2;
      while i < 2 + onlineNum
        invariant 2 <= i && (i <= 2 + onlineNum || (onlineNum < 0 && i == 2))
        invariant Some(acctBalance) == Stoi(tmp[0]) && Some(onlineNum) == Stoi(tmp[1])
        invariant |peerList| == i - 2
        invariant forall k | 0 <= k < |peerList| :: peerList[k] == Split(tmp[2 + k], '#')
      {
        var peer := SplitLoop(tmp[i], '#');
        peerList := peerList + [peer];
        i := i + 1;
      }
    }

    /** find_peer_info: the first entry with that name, or the not_found exception. */
    method FindPeerInfo(name: string) returns (peer: Option<seq<string>>)
      requires forall k | 0 <= k < |peerList| :: peerList[k] != []
      ensures peer.None? <==> forall k | 0 <= k < |peerList| :: peerList[k][0] != name
      ensures peer.Some? ==>
        exists k :: 0 <= k < |peerList| && peerList[k] == peer.value && name == peerList[k][0] &&
          (forall j | 0 <= j < k :: peerList[j][0] != name)
    {
      if |peerList| == 0 {
        return None;
      }
      var i := 0;
      while i < |peerList|
        invariant i <= |peerList|
        invariant forall j | 0 <= j < i :: peerList[j][0] != name
      {
        if name == peerList[i][0] {
          return Some(peerList[i]);
        }
        i := i + 1;
      }
      return None;
    }
  }

  // ---------------------------------------------------------------- round trip

  lemma LineOfRow(c: Client)
    requires Printable(c.username) && Printable(c.ip)
    ensures IsToken(RowLine(c), '\n')
    ensures Split(RowLine(c), '#') == Peer(c)
  {
    Commands.NumberToken(c.privatePort);
    Commands.SplitThree(c.username, c.ip, ToString(c.privatePort));
  }

  lemma FirstLine(line: string, rest: string)
    requires IsToken(line, '\n')
    ensures Lines(line + "\n" + rest) == [line] + Lines(rest)
  {
    SplitAtSeparator(line, rest, '\n');
    SplitToken(line, '\n');
  }

  lemma {:induction false} LinesOfInfo(users: seq<Client>)
    requires AllPrintable(users)
    ensures Lines(UserListInfo(users)) == seq(|users|, i requires 0 <= i < |users| => RowLine(users[i]))
  {
    if users != [] {
      LineOfRow(users[0]);
      FirstLine(RowLine(users[0]), UserListInfo(users[1..]));
      LinesOfInfo(users[1..]);
      hide RowLine, Lines;
    }
  }

  lemma {:induction false} LinesOfReply(balance: int, counted: nat, listed: seq<Client>)
    ensures Lines(SplitReply(balance, counted, listed)) ==
      [ToString(balance), ToString(counted)] + Lines(UserListInfo(listed))
  {
    hide ToString, UserListInfo, Lines, IsToken;
    var b, n, info := ToString(balance), ToString(counted), UserListInfo(listed);
    assert SplitReply(balance, counted, listed) == b + "\n" + (n + "\n" + info);
    Commands.NumberToken(balance);
    Commands.NumberToken(counted);
    FirstLine(b, n + "\n" + info);
    FirstLine(n, info);
  }

  /** The lines of a reply whose count and list come from different tables. */
  lemma ListReplyParses(balance: int, counted: nat, listed: seq<Client>)
    requires AllPrintable(listed)
    ensures var lines := Lines(SplitReply(balance, counted, listed));
      && |lines| == 2 + |listed|
      && Stoi(lines[0]) == Some(balance) && Stoi(lines[1]) == Some(counted as int)
      && forall k | 0 <= k < |listed| :: Split(lines[2 + k], '#') == Peer(listed[k])
  {
    hide Lines, SplitReply, UserListInfo, Split, Peer, RowLine, ToString, Stoi, Printable;
    LinesOfReply(balance, counted, listed);
    LinesOfInfo(listed);
    IntRoundTrip(balance);
    IntRoundTrip(counted);
    forall k | 0 <= k < |listed| ensures Split(Lines(SplitReply(balance, counted, listed))[2 + k], '#') == Peer(listed[k]) {
      LineOfRow(listed[k]);
    }
  }

  /** When count and list come from different tables, what parse_list_info takes for
      granted holds exactly when no more users were counted than listed: a user who
      logs out between the two calls makes the client index past the end. */
  lemma ParsesIff(balance: int, counted: nat, listed: seq<Client>)
    requires AllPrintable(listed)
    ensures Parses(SplitReply(balance, counted, listed)) <==> counted <= |listed|
  {
    hide Lines, SplitReply, AllPrintable, Stoi;
    ListReplyParses(balance, counted, listed);
  }

  /** The list round trip: whatever the balance and the online users, with
      printable names and addresses the client can parse the server's reply and
      ends up with the same balance, the number of users and their rows in order. */
  method ListRoundTrip(view: View, balance: int, users: seq<Client>)
    requires AllPrintable(users)
    modifies view
    ensures view.acctBalance == balance && view.onlineNum == |users| && view.peerList == Peers(users)
  {
    hide Lines, SplitReply, AllPrintable, Stoi, Split;
    ListReplyParses(balance, |users|, users);
    view.ParseListInfo(ListReply(balance, users));
    assert view.peerList == Peers(users);
  }

  // ---------------------------------------------------------------- the login test

  /** The reply of LOGIN: the table after the call, the status, the name asked for. */
  function LoginReply(r: Outcome, name: string): string
    requires r.status == LOGIN_SUCCESS ==> Row(r.rows, name).Some?
  {
    if r.status == LOGIN_AUTH_FAIL then ToString(LOGIN_AUTH_FAIL) + " " + "AUTH_FAIL\n"
    else if r.status == LOGIN_EXIST then ToString(LOGIN_EXIST) + " " + "DUPLICATE_LOGIN\n"
    else if r.status == LOGIN_SUCCESS then ListReply(Row(r.rows, name).value.balance, GetAll(r.rows, AllOnline))
    else ""
  }

  lemma {:induction false} InfoHasLine(users: seq<Client>)
    requires users != []
    ensures |Lines(UserListInfo(users))| >= 1
  {
    var line := RowLine(users[0]);
    SplitAtSeparator(line, UserListInfo(users[1..]), '\n');
    SplitCharacterised(line, '\n');
    HashStays(users[0].username, users[0].ip + "#" + ToString(users[0].privatePort));
    assert line == users[0].username + "#" + (users[0].ip + "#" + ToString(users[0].privatePort));
    assert Flatten(Lines(line)) != "";
  }

  lemma {:induction false} HashStays(a: string, b: string)
    ensures Without(a + "#" + b, '\n') != ""
  {
    if a == "" {
      assert a + "#" + b == "#" + b;
    } else {
      assert (a + "#" + b)[1..] == a[1..] + "#" + b;
      HashStays(a[1..], b);
    }
  }

  lemma OneLine(t: string)
    requires IsToken(t, '\n')
    ensures |Lines(t + "\n")| == 1
  {
    FirstLine(t, "");
    assert t + "\n" + "" == t + "\n";
  }

  /** A user just logged in is in the list that follows. */
  lemma {:induction false} LoginListed(rows: seq<Client>, name: string, ip: string, publicPort: int, privatePort: int)
    requires ValidRows(rows) && Login(rows, name, ip, publicPort, privatePort).status == LOGIN_SUCCESS
    ensures var rows' := Login(rows, name, ip, publicPort, privatePort).rows;
      Row(rows', name).Some? && Row(rows', name).value in GetAll(rows', AllOnline)
  {
  }

  lemma RefusalIsOneLine(status: int)
    requires status in {LOGIN_AUTH_FAIL, LOGIN_EXIST}
    ensures |Lines(LoginReply(Outcome([], status), ""))| == 1
  {
    Codes();
    hide ToString, Lines;
    if status == LOGIN_AUTH_FAIL {
      assert LoginReply(Outcome([], status), "") == "220 AUTH_FAIL" + "\n";
      OneLine("220 AUTH_FAIL");
    } else {
      assert LoginReply(Outcome([], status), "") == "230 DUPLICATE_LOGIN" + "\n";
      OneLine("230 DUPLICATE_LOGIN");
    }
  }

  /** The client's test for a successful login, a reply of at least three lines,
      is exact on every table: a user just logged in is in the list that follows. */
  lemma {:induction false} LoginTestExact(rows: seq<Client>, name: string, ip: string, publicPort: int,
      privatePort: int)
    requires ValidRows(rows)
    ensures var r := Login(rows, name, ip, publicPort, privatePort);
      && (r.status == LOGIN_SUCCESS ==> Row(r.rows, name).Some?)
      && (|Lines(LoginReply(r, name))| <= 2 <==> r.status != LOGIN_SUCCESS)
  {
    var r := Login(rows, name, ip, publicPort, privatePort);
    hide Lines, GetAll, Row, ToString, SplitReply, UserListInfo, ValidRows, Update;
    if r.status == LOGIN_SUCCESS {
      LoginListed(rows, name, ip, publicPort, privatePort);
      LinesOfReply(Row(r.rows, name).value.balance, |GetAll(r.rows, AllOnline)|, GetAll(r.rows, AllOnline));
      InfoHasLine(GetAll(r.rows, AllOnline));
    } else {
      RefusalIsOneLine(r.status);
      assert LoginReply(r, name) == LoginReply(Outcome([], r.status), "");
    }
  }

  lemma Codes()
    ensures ToString(LOGIN_AUTH_FAIL) == "220" && ToString(LOGIN_EXIST) == "230"
  {
  }
}
