/** Laws of the account table over any run of database calls that starts from a
    reset table: every balance is explained by the log of accepted transfers,
    rounding is the only loss of money, and 32-bit balances suffice. */
module LedgerRuns {
  import opened Wrappers
  import opened Ledger

  datatype Call =
    | RegisterCall(name: string)
    | LoginCall(name: string, ip: string, publicPort: int, privatePort: int)
    | LogoutCall(ip: string, publicPort: int)
    | TransferCall(snd: string, rcv: string, pay: real)

  /** An accepted transfer. */
  datatype Entry = Entry(snd: string, rcv: string, pay: real)

  /** The table with the log of its accepted transfers. */
  datatype Book = Book(rows: seq<Client>, log: seq<Entry>)

  function Do(b: Book, call: Call): Book {
    match call
    case RegisterCall(name) => Book(Register(b.rows, name).rows, b.log)
    case LoginCall(name, ip, publicPort, privatePort) =>
      Book(Login(b.rows, name, ip, publicPort, privatePort).rows, b.log)
    case LogoutCall(ip, publicPort) => Book(Logout(b.rows, ip, publicPort).rows, b.log)
    case TransferCall(snd, rcv, pay) =>
      var r := Transfer(b.rows, snd, rcv, pay);
      Book(r.rows, if r.status == TRANSFER_OK then b.log + [Entry(snd, rcv, pay)] else b.log)
  }

  /** The book after a run of calls on a reset table. */
  function After(calls: seq<Call>): Book {
    if calls == [] then Book([], []) else Do(After(calls[..|calls| - 1]), calls[|calls| - 1])
  }

  // ---------------------------------------------------------------- sums

  ghost function Total(rows: seq<Client>): int {
    if rows == [] then 0 else rows[0].balance + Total(rows[1..])
  }

  /** What a user has received and paid over a log. */
  ghost function Received(log: seq<Entry>, name: string): int {
    if log == [] then 0
    else
      var e := log[|log| - 1];
      Received(log[..|log| - 1], name) + if e.rcv == name then e.pay.Floor else 0
  }

  ghost function Paid(log: seq<Entry>, name: string): int {
    if log == [] then 0
    else
      var e := log[|log| - 1];
      Paid(log[..|log| - 1], name) + if e.snd == name then Ceil(e.pay) else 0
  }

  predicate Whole(pay: real) {
    pay.Floor as real == pay
  }

  /** How many transfers of a log have an amount that is not a whole number. */
  ghost function Fractional(log: seq<Entry>): nat {
    if log == [] then 0
    else Fractional(log[..|log| - 1]) + if Whole(log[|log| - 1].pay) then 0 else 1
  }

  lemma {:induction false} TotalUpdate(rows: seq<Client>, c: Client, old_: Client)
    requires UniqueNames(rows) && old_ in rows && old_.username == c.username
    ensures Total(Update(rows, c)) == Total(rows) - old_.balance + c.balance
  {
    assert Update(rows, c)[1..] == Update(rows[1..], c);
    if rows[0] == old_ {
      forall k | 0 <= k < |rows| - 1 ensures rows[1..][k].username != c.username {
        assert rows[1..][k] == rows[k + 1];
      }
      assert Update(rows[1..], c) == rows[1..];
    } else {
      var k :| 0 <= k < |rows| && rows[k] == old_;
      assert rows[1..][k - 1] == old_;
      assert rows[0].username != rows[k].username;
      TotalUpdate(rows[1..], c, old_);
    }
  }

  lemma {:induction false} TotalAppend(rows: seq<Client>, c: Client)
    ensures Total(rows + [c]) == Total(rows) + c.balance
  {
    if rows != [] {
      assert (rows + [c])[1..] == rows[1..] + [c];
      TotalAppend(rows[1..], c);
    } else {
      assert rows + [c] == [c];
    }
  }

  /** No balance, and no sum of two, exceeds the total. */
  lemma {:induction false} TotalBounds(rows: seq<Client>, a: Client, b: Client)
    requires ValidRows(rows) && a in rows && b in rows
    ensures 0 <= a.balance <= Total(rows)
    ensures a.username != b.username ==> a.balance + b.balance <= Total(rows)
    decreases |rows|
  {
    var rest := rows[1..];
    assert ValidRows(rest);
    TotalNonNegative(rest);
    if a in rest { TotalBounds(rest, a, a); }
    if b in rest { TotalBounds(rest, b, b); }
    if a in rest && b in rest { TotalBounds(rest, a, b); }
  }

  lemma {:induction false} TotalNonNegative(rows: seq<Client>)
    requires forall c | c in rows :: c.balance >= 0
    ensures Total(rows) >= 0
  {
    if rows != [] { TotalNonNegative(rows[1..]); }
  }

  // ---------------------------------------------------------------- the invariant

  ghost predicate Explained(b: Book, c: Client) {
    c.balance == INITIAL_BALANCE + Received(b.log, c.username) - Paid(b.log, c.username)
  }

  ghost predicate BookInv(b: Book) {
    && ValidRows(b.rows)
    && (forall k | 0 <= k < |b.rows| :: Explained(b, b.rows[k]))
    && (forall i | 0 <= i < |b.log| :: Row(b.rows, b.log[i].snd).Some? && Row(b.rows, b.log[i].rcv).Some?)
    && Total(b.rows) == INITIAL_BALANCE * |b.rows| - Fractional(b.log)
  }

  lemma {:induction false} NoTraffic(log: seq<Entry>, name: string)
    requires forall i | 0 <= i < |log| :: log[i].snd != name && log[i].rcv != name
    ensures Received(log, name) == 0 && Paid(log, name) == 0
  {
    if log != [] { NoTraffic(log[..|log| - 1], name); }
  }

  lemma {:induction false} RowAppend(rows: seq<Client>, c: Client, name: string)
    ensures Row(rows + [c], name) ==
      if Row(rows, name).Some? then Row(rows, name) else if c.username == name then Some(c) else None
  {
    if rows != [] {
      assert (rows + [c])[1..] == rows[1..] + [c];
      RowAppend(rows[1..], c, name);
    } else {
      assert rows + [c] == [c];
    }
  }

  lemma {:induction false} AppendValid(rows: seq<Client>, c: Client)
    requires ValidRows(rows) && Row(rows, c.username).None? && c.balance >= 0
    ensures ValidRows(rows + [c])
  {
  }

  lemma AppendInv(b: Book, c: Client)
    requires BookInv(b) && Row(b.rows, c.username).None? && c.balance == INITIAL_BALANCE
    ensures BookInv(Book(b.rows + [c], b.log))
  {
    hide Row, Total, Received, Paid, Fractional, ValidRows;
    var rows' := b.rows + [c];
    AppendValid(b.rows, c);
    NoTraffic(b.log, c.username);
    TotalAppend(b.rows, c);
    forall k | 0 <= k < |rows'| ensures Explained(Book(rows', b.log), rows'[k]) {
      if k < |b.rows| { assert Explained(b, b.rows[k]); }
    }
    forall i | 0 <= i < |b.log| ensures Row(rows', b.log[i].snd).Some? && Row(rows', b.log[i].rcv).Some? {
      RowAppend(b.rows, c, b.log[i].snd);
      RowAppend(b.rows, c, b.log[i].rcv);
    }
  }

  lemma RegisterInv(b: Book, name: string)
    requires BookInv(b)
    ensures BookInv(Do(b, RegisterCall(name)))
  {
    hide BookInv, Row;
    if Row(b.rows, name).None? { AppendInv(b, Client(name, "", -1, -1, 0, INITIAL_BALANCE)); }
  }

  /** A write that keeps the balance, as login and logout do. */
  lemma SessionWriteInv(b: Book, c: Client, old_: Client)
    requires BookInv(b) && old_ in b.rows && old_.username == c.username && old_.balance == c.balance
    ensures BookInv(b.(rows := Update(b.rows, c)))
  {
    var rows' := Update(b.rows, c);
    UpdateValid(b.rows, c);
    TotalUpdate(b.rows, c, old_);
    var k :| 0 <= k < |b.rows| && b.rows[k] == old_;
    RowAt(b.rows, k);
    forall i | 0 <= i < |b.log| ensures Row(rows', b.log[i].snd).Some? && Row(rows', b.log[i].rcv).Some? {
      RowAfterUpdate(b.rows, c, b.log[i].snd);
      RowAfterUpdate(b.rows, c, b.log[i].rcv);
    }
    forall j | 0 <= j < |rows'| ensures Explained(b.(rows := rows'), rows'[j]) {
      assert Explained(b, b.rows[j]);
      assert j != k ==> b.rows[j].username != c.username;
    }
  }

  /** One row after an accepted transfer. */
  ghost function Moved(c: Client, snd: string, rcv: string, pay: real): Client {
    c.(balance := c.balance - (if c.username == snd then Ceil(pay) else 0)
                            + (if c.username == rcv then pay.Floor else 0))
  }

  lemma OnlineUnique(rows: seq<Client>, name: string)
    requires ValidRows(rows)
    ensures OnlineRow(rows, name).Some? ==>
      OnlineRow(rows, name).value.username == name &&
      forall k | 0 <= k < |rows| && rows[k].username == name :: rows[k] == OnlineRow(rows, name).value
  {
  }

  /** An accepted transfer moves ceil(p) out of one balance and floor(p) into another. */
  lemma TransferRows(rows: seq<Client>, snd: string, rcv: string, pay: real)
    requires ValidRows(rows) && TransferStatus(rows, snd, rcv, pay) == TRANSFER_OK
    ensures var rows' := Transfer(rows, snd, rcv, pay).rows;
      |rows'| == |rows| && forall k | 0 <= k < |rows| :: rows'[k] == Moved(rows[k], snd, rcv, pay)
  {
    hide Ceil, Row, OnlineRow, ValidRows;
    OnlineUnique(rows, snd);
    OnlineUnique(rows, rcv);
    assert snd != rcv && OnlineRow(rows, snd).Some? && OnlineRow(rows, rcv).Some?;
  }

  lemma RoundingLoss(pay: real)
    ensures Ceil(pay) == pay.Floor + if Whole(pay) then 0 else 1
  {
  }

  lemma {:induction false} TransferTotal(rows: seq<Client>, snd: string, rcv: string, pay: real)
    requires ValidRows(rows) && TransferStatus(rows, snd, rcv, pay) == TRANSFER_OK
    ensures Total(Transfer(rows, snd, rcv, pay).rows) == Total(rows) - if Whole(pay) then 0 else 1
  {
    RoundingLoss(pay);
    hide Ceil, Whole;
    var sender, receiver := OnlineRow(rows, snd).value, OnlineRow(rows, rcv).value;
    var paid := Update(rows, Debited(sender, pay));
    TotalUpdate(rows, Debited(sender, pay), sender);
    UpdateKeepsNames(rows, Debited(sender, pay));
    var j :| 0 <= j < |rows| && rows[j] == receiver;
    assert paid[j] == receiver;
    TotalUpdate(paid, Credited(receiver, pay), receiver);
  }

  lemma {:induction false} LogAppend(log: seq<Entry>, e: Entry, name: string)
    ensures Received(log + [e], name) == Received(log, name) + if e.rcv == name then e.pay.Floor else 0
    ensures Paid(log + [e], name) == Paid(log, name) + if e.snd == name then Ceil(e.pay) else 0
    ensures Fractional(log + [e]) == Fractional(log) + if Whole(e.pay) then 0 else 1
  {
  }

  /** The log entry of an accepted transfer explains the rows that it moved. */
  lemma {:induction false} EntryExplains(b: Book, rows': seq<Client>, e: Entry)
    requires BookInv(b) && ValidRows(rows') && |rows'| == |b.rows|
    requires forall k | 0 <= k < |b.rows| :: rows'[k] == Moved(b.rows[k], e.snd, e.rcv, e.pay)
    requires Row(b.rows, e.snd).Some? && Row(b.rows, e.rcv).Some?
    requires Total(rows') == Total(b.rows) - (if Whole(e.pay) then 0 else 1)
    ensures BookInv(Book(rows', b.log + [e]))
  {
    var b' := Book(rows', b.log + [e]);
    LogAppend(b.log, e, e.snd);
    hide Ceil, ValidRows, Total, Received, Paid, Fractional, Whole, Row;
    forall k | 0 <= k < |rows'| ensures Explained(b', rows'[k]) {
      assert Explained(b, b.rows[k]);
      LogAppend(b.log, e, rows'[k].username);
    }
    forall i | 0 <= i < |b'.log| ensures Row(rows', b'.log[i].snd).Some? && Row(rows', b'.log[i].rcv).Some? {
      NamesStay(b.rows, rows', b'.log[i].snd);
      NamesStay(b.rows, rows', b'.log[i].rcv);
    }
  }

  lemma TransferInv(b: Book, snd: string, rcv: string, pay: real)
    requires BookInv(b) && TransferStatus(b.rows, snd, rcv, pay) == TRANSFER_OK
    ensures BookInv(Do(b, TransferCall(snd, rcv, pay)))
  {
    hide *;
    DoTransfer(b, snd, rcv, pay);
    var rows' := Transfer(b.rows, snd, rcv, pay).rows;
    TransferRows(b.rows, snd, rcv, pay);
    TransferTotal(b.rows, snd, rcv, pay);
    TransferValid(b.rows, snd, rcv, pay);
    EntryExplains(b, rows', Entry(snd, rcv, pay));
  }

  lemma {:induction false} DoTransfer(b: Book, snd: string, rcv: string, pay: real)
    requires BookInv(b) && TransferStatus(b.rows, snd, rcv, pay) == TRANSFER_OK
    ensures ValidRows(b.rows) && Row(b.rows, snd).Some? && Row(b.rows, rcv).Some?
    ensures Do(b, TransferCall(snd, rcv, pay)) == Book(Transfer(b.rows, snd, rcv, pay).rows, b.log + [Entry(snd, rcv, pay)])
  {
    hide Update, Row, Total, Explained, Ceil;
  }

  lemma {:induction false} NamesStay(rows: seq<Client>, rows': seq<Client>, name: string)
    requires |rows| == |rows'| && forall k | 0 <= k < |rows| :: rows'[k].username == rows[k].username
    ensures Row(rows, name).Some? <==> Row(rows', name).Some?
  {
  }

  lemma LoginInv(b: Book, name: string, ip: string, publicPort: int, privatePort: int)
    requires BookInv(b)
    ensures BookInv(Do(b, LoginCall(name, ip, publicPort, privatePort)))
  {
    if Row(b.rows, name).Some? {
      var c := Row(b.rows, name).value;
      hide Row, BookInv;
      SessionWriteInv(b, c.(ip := ip, publicPort := publicPort, privatePort := privatePort, onlineStatus := 1), c);
    }
  }

  lemma LogoutInv(b: Book, ip: string, publicPort: int)
    requires BookInv(b)
    ensures BookInv(Do(b, LogoutCall(ip, publicPort)))
  {
    var found := GetAll(b.rows, OnlineAt(ip, publicPort));
    if |found| == 1 {
      assert found[0] in found;
      hide BookInv;
      SessionWriteInv(b, LoggedOut(found[0]), found[0]);
    }
  }

  lemma DoInv(b: Book, call: Call)
    requires BookInv(b)
    ensures BookInv(Do(b, call))
  {
    hide BookInv, Row, Register, Login, Logout;
    match call
    case RegisterCall(name) => RegisterInv(b, name);
    case LoginCall(name, ip, publicPort, privatePort) => LoginInv(b, name, ip, publicPort, privatePort);
    case LogoutCall(ip, publicPort) => LogoutInv(b, ip, publicPort);
    case TransferCall(snd, rcv, pay) =>
      if TransferStatus(b.rows, snd, rcv, pay) == TRANSFER_OK { TransferInv(b, snd, rcv, pay); }
  }

  lemma {:induction false} AfterInv(calls: seq<Call>)
    ensures BookInv(After(calls))
  {
    if calls != [] {
      AfterInv(calls[..|calls| - 1]);
      hide BookInv, Do;
      DoInv(After(calls[..|calls| - 1]), calls[|calls| - 1]);
    }
  }

  // ---------------------------------------------------------------- one user's view of a call

  /** A registration gives a new user 10000 and an offline row; it changes no other row. */
  lemma {:induction false} RegisterEffect(rows: seq<Client>, name: string, u: string)
    ensures var r := Register(rows, name);
      && (r.status == REGISTER_OK <==> forall c | c in rows :: c.username != name)
      && Row(r.rows, u) ==
           if r.status == REGISTER_OK && u == name then Some(Client(name, "", -1, -1, 0, 10000)) else Row(rows, u)
  {
    hide Row;
    RowAppend(rows, Client(name, "", -1, -1, 0, INITIAL_BALANCE), u);
  }

  /** A login succeeds exactly for a registered user who is offline; it puts that
      user's row online at the address, with the balance it had, and changes no
      other row. */
  lemma {:induction false} LoginEffect(rows: seq<Client>, name: string, ip: string, publicPort: int, privatePort: int,
      u: string)
    requires UniqueNames(rows)
    ensures var r := Login(rows, name, ip, publicPort, privatePort);
      && (r.status == LOGIN_SUCCESS <==> Row(rows, name).Some? && OnlineRow(rows, name).None?)
      && Row(r.rows, u) ==
           if r.status == LOGIN_SUCCESS && u == name
           then Some(Client(name, ip, publicPort, privatePort, 1, Row(rows, name).value.balance)) else Row(rows, u)
  {
  }

  /** A logout that finds one row puts it offline, with the balance it had, and
      changes no other row. */
  lemma {:induction false} LogoutEffect(rows: seq<Client>, ip: string, publicPort: int, u: string)
    requires UniqueNames(rows)
    ensures var r, found := Logout(rows, ip, publicPort), GetAll(rows, OnlineAt(ip, publicPort));
      && (r.status == LOGOUT_SUCCESS <==> |found| == 1)
      && Row(r.rows, u) ==
           if |found| == 1 && found[0].username == u
           then Some(Client(u, "", -1, -1, 0, found[0].balance)) else Row(rows, u)
  {
    var found := GetAll(rows, OnlineAt(ip, publicPort));
    if |found| == 1 {
      assert found[0] in found;
      assert Row(rows, found[0].username).Some?;
      hide Row, Update, GetAll;
      RowAfterUpdate(rows, LoggedOut(found[0]), u);
    }
  }

  // ---------------------------------------------------------------- the laws

  /** In any run, each balance is 10000 plus the floors received minus the
      ceilings paid, is never negative, and money is lost only to rounding: one
      unit for each accepted transfer of a non-integral amount. */
  lemma {:induction false} RoundingLaw(calls: seq<Call>)
    ensures var b := After(calls);
      && (forall c | c in b.rows ::
            c.balance == INITIAL_BALANCE + Received(b.log, c.username) - Paid(b.log, c.username) && c.balance >= 0)
      && Total(b.rows) == INITIAL_BALANCE * |b.rows| - Fractional(b.log)
  {
    AfterInv(calls);
    var b := After(calls);
    forall c | c in b.rows ensures Explained(b, c) {
      var k :| 0 <= k < |b.rows| && b.rows[k] == c;
      assert Explained(b, b.rows[k]);
    }
  }

  lemma {:induction false} WholeLog(log: seq<Entry>)
    ensures Fractional(log) == 0 <==> forall i | 0 <= i < |log| :: Whole(log[i].pay)
  {
    if log != [] {
      WholeLog(log[..|log| - 1]);
      assert forall i | 0 <= i < |log| - 1 :: log[i] == log[..|log| - 1][i];
    }
  }

  /** Money is conserved exactly when every accepted amount was a whole number. */
  lemma {:induction false} MoneyConservedIff(calls: seq<Call>)
    ensures var b := After(calls);
      Total(b.rows) == INITIAL_BALANCE * |b.rows| <==> forall i | 0 <= i < |b.log| :: Whole(b.log[i].pay)
  {
    RoundingLaw(calls);
    WholeLog(After(calls).log);
  }

  const INT_MAX := 0x7fff_ffff

  /** With at most 214748 users no conversion back to a 32-bit int is out of
      range: neither a stored balance nor the sum an accepted transfer computes. */
  lemma {:induction false} BalancesFitInt(calls: seq<Call>, snd: string, rcv: string, pay: real)
    requires |After(calls).rows| <= 214748
    ensures var rows := After(calls).rows;
      && (forall c | c in rows :: 0 <= c.balance <= INT_MAX)
      && (TransferStatus(rows, snd, rcv, pay) == TRANSFER_OK ==>
            0.0 <= OnlineRow(rows, snd).value.balance as real - pay &&
            OnlineRow(rows, rcv).value.balance as real + pay <= INT_MAX as real)
  {
    var rows := After(calls).rows;
    AfterInv(calls);
    assert Total(rows) <= 10000 * 214748;
    forall c | c in rows ensures 0 <= c.balance <= INT_MAX {
      TotalBounds(rows, c, c);
    }
    if TransferStatus(rows, snd, rcv, pay) == TRANSFER_OK {
      TotalBounds(rows, OnlineRow(rows, snd).value, OnlineRow(rows, rcv).value);
    }
  }
}
