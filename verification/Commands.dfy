/** The commands on the wire: what src/client.cpp prints and what parse_command of
    src/server.cpp makes of it. */
module Commands {
  import opened Wrappers
  import opened Text

  datatype Kind = REGISTER | LOGIN | LIST | TRANSACTION | EXIT | ERR

  datatype Parsed = Parsed(kind: Kind, args: seq<string>)

  const DECIMAL := "0123456789"
  const DOUBLE_CHARS := "-.0123456789"

  predicate IsNumber(s: string, doubleFlag: bool) {
    forall c | c in s :: c in if doubleFlag then DOUBLE_CHARS else DECIMAL
  }

  function ParseCommand(cmd: string): Parsed {
    var args := Split(cmd, '#');
    if |args| == 1 && args[0] == "Exit" then Parsed(EXIT, args)
    else if |args| == 1 && args[0] == "List" then Parsed(LIST, args)
    else if |args| == 2 && args[0] == "REGISTER" then Parsed(REGISTER, args)
    else if |args| == 2 && IsNumber(args[1], false) then Parsed(LOGIN, args)
    else if |args| == 3 && IsNumber(args[1], true) then Parsed(TRANSACTION, args)
    else Parsed(ERR, args)
  }

  /** What a client asks for. */
  datatype Command =
    | Exit
    | List
    | Register(name: string)
    | Login(name: string, port: nat)
    | Pay(snd: string, amount: int, rcv: string)

  /** The string that exit_server, request_list, register_user, login_server or
      p2p_transaction sends. */
  function Print(c: Command): string {
    match c
    case Exit => "Exit"
    case List => "List"
    case Register(name) => "REGISTER#" + name
    case Login(name, port) => name + "#" + ToString(port)
    case Pay(snd, amount, rcv) => snd + "#" + ToString(amount) + "#" + rcv
  }

  /** Names are nonempty and free of the separator. */
  predicate NamesOk(c: Command) {
    match c
    case Exit => true
    case List => true
    case Register(name) => IsToken(name, '#')
    case Login(name, _) => IsToken(name, '#')
    case Pay(snd, _, rcv) => IsToken(snd, '#') && IsToken(rcv, '#')
  }

  /** What process_request does with the result of parse_command: which operation
      it calls, with which arguments; None where a conversion throws. */
  datatype Request =
    | AskExit
    | AskList
    | AskRegister(name: string)
    | AskLogin(name: string, port: int)
    | AskTransfer(snd: string, amount: real, rcv: string)
    | Rejected

  function Understand(p: Parsed): Option<Request>
    requires (p.kind.REGISTER? || p.kind.LOGIN? ==> |p.args| == 2) && (p.kind.TRANSACTION? ==> |p.args| == 3)
  {
    match p.kind
    case EXIT => Some(AskExit)
    case LIST => Some(AskList)
    case REGISTER => Some(AskRegister(p.args[1]))
    case LOGIN => (match Stoi(p.args[1]) case Some(port) => Some(AskLogin(p.args[0], port)) case None => None)
    case TRANSACTION =>
      (match Stod(p.args[1]) case Some(amount) => Some(AskTransfer(p.args[0], amount, p.args[2])) case None => None)
    case ERR => Some(Rejected)
  }

  /** What the client meant. */
  function Meaning(c: Command): Request {
    match c
    case Exit => AskExit
    case List => AskList
    case Register(name) => AskRegister(name)
    case Login(name, port) => AskLogin(name, port)
    case Pay(snd, amount, rcv) => AskTransfer(snd, amount as real, rcv)
  }

  lemma NumberToken(n: int)
    ensures IsToken(ToString(n), '#') && IsToken(ToString(n), '\n')
    ensures IsNumber(ToString(n), true)
    ensures n >= 0 ==> IsNumber(ToString(n), false)
  {
    var s := ToString(n);
    var m: nat := if n < 0 then -n else n;
    var digits := NatToString(m);
    forall c | c in digits ensures c in DECIMAL && c in DOUBLE_CHARS {
      assert IsDigit(c);
      var d := DigitValue(c);
      assert DECIMAL[d] == c && DOUBLE_CHARS[d + 2] == c;
    }
    assert DOUBLE_CHARS[0] == '-';
  }

  lemma {:induction false} SplitTwo(a: string, b: string)
    requires IsToken(a, '#') && IsToken(b, '#')
    ensures Split(a + "#" + b, '#') == [a, b]
  {
    SplitAtSeparator(a, b, '#');
    SplitToken(a, '#');
    SplitToken(b, '#');
  }

  lemma {:induction false} SplitThree(a: string, b: string, c: string)
    requires IsToken(a, '#') && IsToken(b, '#') && IsToken(c, '#')
    ensures Split(a + "#" + b + "#" + c, '#') == [a, b, c]
  {
    hide Split, IsToken;
    assert a + "#" + b + "#" + c == a + "#" + (b + "#" + c);
    SplitAtSeparator(a, b + "#" + c, '#');
    SplitToken(a, '#');
    SplitTwo(b, c);
  }

  lemma SimpleRoundTrip(c: Command)
    requires c.Exit? || c.List?
    ensures Understand(ParseCommand(Print(c))) == Some(Meaning(c))
  {
    SplitToken(Print(c), '#');
    hide Split;
  }

  lemma RegisterRoundTrip(name: string)
    requires IsToken(name, '#')
    ensures Understand(ParseCommand(Print(Register(name)))) == Some(AskRegister(name))
  {
    assert "REGISTER#" + name == "REGISTER" + "#" + name;
    SplitTwo("REGISTER", name);
    hide Split, IsToken;
  }

  lemma LoginRoundTrip(name: string, port: nat)
    requires IsToken(name, '#')
    ensures Understand(ParseCommand(Print(Login(name, port)))) ==
      if name == "REGISTER" then Some(AskRegister(ToString(port))) else Some(AskLogin(name, port))
  {
    NumberToken(port);
    SplitTwo(name, ToString(port));
    IntRoundTrip(port);
    hide Split, Stoi, Stod, ToString, IsNumber, IsToken;
  }

  lemma PayRoundTrip(snd: string, amount: int, rcv: string)
    requires IsToken(snd, '#') && IsToken(rcv, '#')
    ensures Understand(ParseCommand(Print(Pay(snd, amount, rcv)))) == Some(AskTransfer(snd, amount as real, rcv))
  {
    NumberToken(amount);
    SplitThree(snd, ToString(amount), rcv);
    IntRoundTrip(amount);
    hide Split, Stoi, Stod, ToString, IsNumber, IsToken;
  }

  /** The command round trip: with well-formed names the server does what the
      client asked for, except that a login under the name REGISTER registers a
      user whose name is the port. */
  lemma CommandRoundTrip(c: Command)
    requires NamesOk(c)
    ensures Understand(ParseCommand(Print(c))) ==
      if c.Login? && c.name == "REGISTER" then Some(AskRegister(ToString(c.port))) else Some(Meaning(c))
  {
    hide ParseCommand, Understand, Print, ToString, IsToken;
    match c
    case Exit => SimpleRoundTrip(c);
    case List => SimpleRoundTrip(c);
    case Register(name) => RegisterRoundTrip(name);
    case Login(name, port) => LoginRoundTrip(name, port);
    case Pay(snd, amount, rcv) => PayRoundTrip(snd, amount, rcv);
  }

  lemma ArgsAreTokens(c: Command)
    ensures forall t | t in ParseCommand(Print(c)).args :: IsToken(t, '#')
  {
    SplitCharacterised(Print(c), '#');
  }

  /** A command that is understood as it was meant has well-formed names: they are
      tokens of what was printed. */
  lemma UnderstoodNames(c: Command)
    requires Understand(ParseCommand(Print(c))) == Some(Meaning(c))
    ensures NamesOk(c)
  {
    ArgsAreTokens(c);
    hide Print, Split, Stoi, Stod, IsToken, IsNumber;
    var args := ParseCommand(Print(c)).args;
    assert forall i | 0 <= i < |args| :: args[i] in args;
  }

  /** The server understands a client's command as it was meant exactly when its
      names are nonempty and free of the separator and it is not a login under the
      name REGISTER. */
  lemma UnderstoodIff(c: Command)
    ensures Understand(ParseCommand(Print(c))) == Some(Meaning(c)) <==>
      NamesOk(c) && !(c.Login? && c.name == "REGISTER")
  {
    hide Split, Stoi, Stod, IsNumber, Print, NamesOk;
    if NamesOk(c) { CommandRoundTrip(c); }
    if Understand(ParseCommand(Print(c))) == Some(Meaning(c)) { UnderstoodNames(c); }
  }

  /** A login name with a separator and an amount in it is read as a payment to the
      user whose name is the port. */
  lemma LoginReadAsPayment(v: string, a: int, port: nat)
    requires IsToken(v, '#')
    ensures Understand(ParseCommand(Print(Login(v + "#" + ToString(a), port)))) ==
      Some(AskTransfer(v, a as real, ToString(port)))
  {
    hide ParseCommand, Understand, ToString, IsToken;
    NumberToken(port);
    PayRoundTrip(v, a, ToString(port));
    assert Print(Login(v + "#" + ToString(a), port)) == Print(Pay(v, a, ToString(port)));
  }

  lemma Regroup(x: string, y: string)
    ensures "REGISTER#" + (x + "#" + y) == "REGISTER" + "#" + x + "#" + y
  {
  }

  /** A registration of a name with a separator and an amount in it is read as a
      payment by a user called REGISTER. */
  lemma RegisterReadAsPayment(a: int, rcv: string)
    requires IsToken(rcv, '#')
    ensures Understand(ParseCommand(Print(Register(ToString(a) + "#" + rcv)))) ==
      Some(AskTransfer("REGISTER", a as real, rcv))
  {
    hide ParseCommand, Understand, ToString;
    PayRoundTrip("REGISTER", a, rcv);
    Regroup(ToString(a), rcv);
  }

  /** A payment of a decimal fraction, which no client prints but the server takes. */
  lemma DecimalPayment(snd: string, x: string, y: string, rcv: string)
    requires IsToken(snd, '#') && IsToken(rcv, '#')
    requires x != "" && (forall c | c in x :: IsDigit(c)) && (forall c | c in y :: IsDigit(c))
    ensures Understand(ParseCommand(snd + "#" + (x + "." + y) + "#" + rcv)) == Some(AskTransfer(snd, Decimal(x, y), rcv))
  {
    hide ParseCommand, Understand, Split, Stod, Stoi, Decimal, IsToken, IsNumber, IsDigit;
    DecimalToken(x, y);
    SplitThree(snd, x + "." + y, rcv);
    DecimalIs(x, y);
    AmountText(snd + "#" + (x + "." + y) + "#" + rcv, snd, x + "." + y, rcv);
  }

  lemma AmountText(cmd: string, snd: string, amount: string, rcv: string)
    requires Split(cmd, '#') == [snd, amount, rcv] && IsNumber(amount, true) && Stod(amount).Some?
    ensures Understand(ParseCommand(cmd)) == Some(AskTransfer(snd, Stod(amount).value, rcv))
  {
    hide Split, Stod, Stoi, IsNumber;
  }

  lemma DecimalToken(x: string, y: string)
    requires x != "" && (forall c | c in x :: IsDigit(c)) && (forall c | c in y :: IsDigit(c))
    ensures IsToken(x + "." + y, '#') && IsNumber(x + "." + y, true)
  {
    forall c | c in x + "." + y ensures c in DOUBLE_CHARS && c != '#' {
      if IsDigit(c) {
        assert DOUBLE_CHARS[DigitValue(c) + 2] == c;
      } else {
        assert c == '.' && DOUBLE_CHARS[1] == '.';
      }
    }
  }
}
