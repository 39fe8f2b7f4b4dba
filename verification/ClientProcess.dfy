/** The client program of src/client.cpp: the globals of its main and receive
    threads, and what the menu's functions do to them.  Each method is proved to be
    the client's part of a step of Protocol. */
module ClientProcess {
  import opened Wrappers
  import opened Text
  import opened Commands
  import opened Server
  import opened Protocol
  import ClientView
  import Ledger

  class Client {
    const connection: Connection
    const view: ClientView.View    // acct_balance, online_num and peer_list
    var main: Main
    var name: string
    var clientServerOpen: bool
    ghost var peersKnown: bool     // some list has been parsed
    var serial: nat
    var inbox: seq<Up>
    var up: seq<Up>
    var down: seq<Down>

    /** The process as Protocol sees it. */
    ghost function State(): Agent
      reads this
    {
      Agent(main, name, clientServerOpen, peersKnown, serial, inbox, up, down)
    }

    /** peer_list is empty until a list has been parsed, and its entries have fields. */
    ghost predicate Valid()
      reads this, view
    {
      && (view.peerList != [] ==> peersKnown)
      && forall k | 0 <= k < |view.peerList| :: |view.peerList[k]| >= 3
    }

    constructor (connection: Connection)
      ensures Valid() && fresh(view) && State() == FRESH_AGENT && this.connection == connection
    {
      this.connection := connection;
      view := new ClientView.View();
      main, name, clientServerOpen, peersKnown, serial := Menu, "", false, false, 0;
      inbox, up, down := [], [], [];
    }

    /** send_P3 on the server's connection: the server will read what the text means. */
    method SendP3(msg: string)
      requires Understand(ParseCommand(msg)).Some?
      modifies this`up
      ensures up == old(up) + [Up(Understand(ParseCommand(msg)).value, None)]
    {
      up := up + [Up(Understand(ParseCommand(msg)).value, None)];
    }

    method RegisterUser(tmpName: string)
      requires NamesOk(Register(tmpName))
      modifies this
      ensures State() == AfterSend(old(State()), Register(tmpName))
      ensures name == if clientServerOpen then old(name) else tmpName
    {
      hide ParseCommand, Understand;
      var sndMsg := "REGISTER#" + tmpName;
      if !clientServerOpen {
        name := tmpName;
      }
      CommandRoundTrip(Register(tmpName));
      SendP3(sndMsg);
      main := Await(Register(tmpName));
    }

    /** login_server, with the answer to "Using the JUST registered account?". */
    method LoginServer(useRegistered: bool, tmpName: string, port: nat)
      requires NamesOk(Login(if useRegistered then name else tmpName, port))
      modifies this
      ensures State() == AfterSend(old(State()), Login(if useRegistered then old(name) else tmpName, port))
      ensures name == if useRegistered then old(name) else tmpName
    {
      hide ParseCommand, Understand, ToString;
      var sndMsg := "";
      if useRegistered {
        sndMsg := sndMsg + name;
      } else {
        sndMsg := sndMsg + tmpName;
        name := tmpName;
      }
      sndMsg := sndMsg + "#";
      sndMsg := sndMsg + ToString(port);
      assert sndMsg == Print(Login(name, port));
      CommandRoundTrip(Login(name, port));
      SendP3(sndMsg);
      main := Await(Login(name, port));
    }

    method RequestList()
      modifies this
      ensures State() == AfterSend(old(State()), List)
    {
      hide ParseCommand, Understand;
      CommandRoundTrip(List);
      SendP3("List");
      main := Await(List);
    }

    method ExitServer()
      modifies this
      ensures State() == AfterSend(old(State()), Exit)
    {
      hide ParseCommand, Understand;
      CommandRoundTrip(Exit);
      SendP3("Exit");
      main := Await(Exit);
    }

    /** p2p_transaction up to the wait for the server's answer.  If the receiver is
        not in peer_list, or its port is no number, the not_found exception ends the
        function before anything is sent.  Otherwise what is handed to the peer is
        the payment, and the main thread waits for its reply. */
    method P2pTransaction(receiver: string, amount: int) returns (transactMsg: string, peer: Option<seq<string>>)
      requires Valid() && NamesOk(Pay(name, amount, receiver))
      modifies this
      ensures Valid()
      ensures Understand(ParseCommand(transactMsg)) == Some(PaymentOf(old(State()), receiver, amount))
      ensures peer.Some? <==> exists k :: FirstAt(view.peerList, receiver, k) && Stoi(view.peerList[k][2]).Some?
      ensures forall k | FirstAt(view.peerList, receiver, k) && peer.Some? :: peer.value == view.peerList[k]
      ensures peer.Some? ==> peersKnown && State() == Payer(old(State()), PayId(connection, old(serial)))
      ensures peer.None? ==> State() == old(State())
    {
      hide ParseCommand, Understand, ToString, Stoi;
      CommandRoundTrip(Pay(name, amount, receiver));
      transactMsg := "";
      transactMsg := transactMsg + name;
      transactMsg := transactMsg + "#";
      transactMsg := transactMsg + ToString(amount);
      transactMsg := transactMsg + "#";
      transactMsg := transactMsg + receiver;
      assert transactMsg == Print(Pay(name, amount, receiver));
      peer := view.FindPeerInfo(receiver);
      if peer.None? {
        return;
      }
      var hostPort := Stoi(peer.value[2]);
      if hostPort.None? {
        peer := None;
        return;
      }
      main := AwaitPay(PayId(connection, serial));
      serial := serial + 1;
    }

    /** One iteration of receiving: what a peer sent goes to the server as it is. */
    method Receiving()
      requires inbox != []
      modifies this
      ensures State() == old(State()).(inbox := old(inbox)[1..], up := old(up) + [old(inbox)[0]])
    {
      var buffer := inbox[0];
      inbox := inbox[1..];
      up := up + [buffer];
    }

    /** The main thread reads the reply that it has been waiting for.  A list must be
        one that parse_list_info can parse, with three fields for each user. */
    method ReadReply() returns (rcvMsg: string)
      requires Valid() && down != []
      requires main == Await(List) && down[0].reply != NotLoggedIn ==> GoodList(ReplyText(down[0].reply))
      modifies this, view
      ensures Valid() && State() == AfterRead(old(State()))
      ensures rcvMsg == ReplyText(old(down)[0].reply)
      ensures old(main) == Await(List) && old(down)[0].reply != NotLoggedIn ==>
        var lines := ClientView.Lines(rcvMsg);
        && Some(view.acctBalance) == Stoi(lines[0]) && Some(view.onlineNum) == Stoi(lines[1])
        && |view.peerList| == (if view.onlineNum < 0 then 0 else view.onlineNum)
        && forall k | 0 <= k < |view.peerList| :: view.peerList[k] == Split(lines[2 + k], '#')
      ensures !(old(main) == Await(List) && old(down)[0].reply != NotLoggedIn) ==>
        && view.acctBalance == old(view.acctBalance) && view.onlineNum == old(view.onlineNum)
        && view.peerList == old(view.peerList)
    {
      hide ReplyText, Split, Stoi;
      rcvMsg := ReplyText(down[0].reply);
      OnlyNotLoggedIn(down[0].reply);
      down := down[1..];
      match main
      case Await(Exit) =>
        main := Gone;
      case Await(Login(_, _)) =>
        var res := SplitLoop(rcvMsg, '\n');
        if |res| > 2 {
          clientServerOpen := true;
        }
        main := Menu;
      case Await(List) =>
        if rcvMsg != "Please login first\n" {
          view.ParseListInfo(rcvMsg);
          peersKnown := true;
        }
        main := Menu;
      case _ =>
        main := Menu;
    }
  }

  /** Entry k is the first of that name. */
  ghost predicate FirstAt(peerList: seq<seq<string>>, name: string, k: int) {
    && 0 <= k < |peerList| && |peerList[k]| >= 3 && peerList[k][0] == name
    && forall j | 0 <= j < k :: peerList[j] != [] && peerList[j][0] != name
  }

  /** parse_list_info can parse the text, and each announced line has three fields. */
  predicate GoodList(msg: string) {
    && ClientView.Parses(msg)
    && var lines := ClientView.Lines(msg);
       forall i | 2 <= i < 2 + Stoi(lines[1]).value :: |Split(lines[i], '#')| >= 3
  }

  /** The replies that the server sends to List are such lists, when names and
      addresses are printable. */
  lemma ListingIsGood(balance: int, users: seq<Ledger.Client>)
    requires ClientView.AllPrintable(users)
    ensures GoodList(ReplyText(Listing(balance, users)))
  {
    hide Split, ClientView.Lines, ClientView.AllPrintable, ClientView.SplitReply, Stoi;
    ClientView.ListReplyParses(balance, |users|, users);
    var lines := ClientView.Lines(ClientView.SplitReply(balance, |users|, users));
    forall i | 2 <= i < 2 + |users| ensures |Split(lines[i], '#')| >= 3 {
      assert Split(lines[2 + (i - 2)], '#') == ClientView.Peer(users[i - 2]);
    }
  }

  /** The text that request_list compares with is sent for no other reply. */
  lemma OnlyNotLoggedIn(r: Reply)
    ensures ReplyText(r) == "Please login first\n" <==> r.NotLoggedIn?
  {
    var refused := "Please login first\n";
    assert refused[0] == 'P';
    match r
    case RegisterReply(status) => NumberFirst(status);
    case LoginFailed(status) => NumberFirst(status);
    case LoginOk(balance, _) => NumberFirst(balance);
    case NotLoggedIn =>
    case Listing(balance, _) => NumberFirst(balance);
    case TransferReply(_) => assert ReplyText(r)[0] == 't';
    case Bye => assert ReplyText(r)[0] == 'B';
    case QueryError => NumberFirst(QUERY_ERROR);
  }

  lemma NumberFirst(n: int)
    ensures ToString(n)[0] != 'P'
  {
    if n >= 0 { assert IsDigit(NatToString(n)[0]); }
  }
}
