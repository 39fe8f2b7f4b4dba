/** What the queries and the transfer of src/Database.cpp mean in terms of the rows
    themselves: who is found, how often and in which order, and which transfers are
    accepted. */
module Queries {
  import opened Wrappers
  import opened Ledger

  // ---------------------------------------------------------------- get_all

  /** A query looks at each row by itself. */
  lemma GetAllOne(c: Client, q: Query)
    ensures GetAll([c], q) == if Matches(q, c) then [c] else []
  {
    assert [c][1..] == [];
  }

  /** A query keeps the order of the table, and each row's number of occurrences. */
  lemma {:induction false} GetAllAppend(a: seq<Client>, b: seq<Client>, q: Query)
    ensures GetAll(a + b, q) == GetAll(a, q) + GetAll(b, q)
  {
    if a == [] {
      assert a + b == b;
    } else {
      assert (a + b)[1..] == a[1..] + b;
      GetAllAppend(a[1..], b, q);
    }
  }

  /** The positions of the rows that a query finds. */
  ghost function Hits(rows: seq<Client>, q: Query): set<nat> {
    set k: nat | k < |rows| && Matches(q, rows[k])
  }

  lemma HitsAt(rows: seq<Client>, c: Client, q: Query, k: nat)
    ensures k in Hits(rows + [c], q) <==> k in Hits(rows, q) || (k == |rows| && Matches(q, c))
    ensures |rows| !in Hits(rows, q)
  {
  }

  lemma HitsNext(rows: seq<Client>, c: Client, q: Query)
    ensures |Hits(rows + [c], q)| == |Hits(rows, q)| + if Matches(q, c) then 1 else 0
  {
    hide Matches, Hits;
    HitsAt(rows, c, q, |rows|);
    var before, after := Hits(rows, q), Hits(rows + [c], q);
    forall k: nat ensures k in after <==> k in before || (k == |rows| && Matches(q, c)) {
      HitsAt(rows, c, q, k);
    }
    if Matches(q, c) {
      assert after == before + {|rows|};
    } else {
      assert after == before;
    }
  }

  /** As many rows are found as match. */
  lemma {:induction false} GetAllCounts(rows: seq<Client>, q: Query)
    ensures |GetAll(rows, q)| == |Hits(rows, q)|
  {
    if rows == [] {
      assert Hits(rows, q) == {};
    } else {
      hide Hits, GetAll, Matches;
      var n := |rows| - 1;
      assert rows == rows[..n] + [rows[n]];
      GetAllAppend(rows[..n], [rows[n]], q);
      GetAllOne(rows[n], q);
      GetAllCounts(rows[..n], q);
      HitsNext(rows[..n], rows[n], q);
    }
  }

  /** The positions of the users who are online. */
  ghost function OnlinePositions(rows: seq<Client>): set<nat> {
    set k: nat | k < |rows| && rows[k].onlineStatus == 1
  }

  /** The list of online users has each of them exactly once: its length is the
      number of rows whose status is 1, it has no two rows of one user, and exactly
      the rows with status 1 are in it. */
  lemma {:induction false} OnlineOnce(rows: seq<Client>)
    requires UniqueNames(rows)
    ensures |GetAll(rows, AllOnline)| == |OnlinePositions(rows)|
    ensures UniqueNames(GetAll(rows, AllOnline))
    ensures forall c :: c in GetAll(rows, AllOnline) <==> c in rows && c.onlineStatus == 1
  {
    GetAllCounts(rows, AllOnline);
    assert Hits(rows, AllOnline) == OnlinePositions(rows);
    FoundUnique(rows, AllOnline);
  }

  lemma {:induction false} FoundUnique(rows: seq<Client>, q: Query)
    requires UniqueNames(rows)
    ensures UniqueNames(GetAll(rows, q))
  {
    if rows != [] {
      FoundUnique(rows[1..], q);
      var rest := GetAll(rows[1..], q);
      forall j | 0 <= j < |rest| ensures rest[j].username != rows[0].username {
        assert rest[j] in rows[1..];
        var k :| 0 <= k < |rows| - 1 && rows[1..][k] == rest[j];
        assert rows[k + 1] == rest[j];
      }
    }
  }

  /** A user's online row, if any, is the row of that name whose status is 1. */
  lemma OnlineRowIs(rows: seq<Client>, name: string, c: Client)
    requires UniqueNames(rows)
    ensures OnlineRow(rows, name) == Some(c) <==> c in rows && c.username == name && c.onlineStatus == 1
  {
    if c in rows && c.username == name {
      var k :| 0 <= k < |rows| && rows[k] == c;
      RowAt(rows, k);
    }
  }

  // ---------------------------------------------------------------- user_transaction

  predicate IsOnline(rows: seq<Client>, name: string) {
    exists c :: c in rows && c.username == name && c.onlineStatus == 1
  }

  /** The user is online with at least that much money. */
  predicate CanAfford(rows: seq<Client>, name: string, pay: real) {
    exists c :: c in rows && c.username == name && c.onlineStatus == 1 && c.balance as real >= pay
  }

  lemma OnlineIff(rows: seq<Client>, name: string, pay: real)
    requires UniqueNames(rows)
    ensures OnlineRow(rows, name).Some? <==> IsOnline(rows, name)
    ensures CanAfford(rows, name, pay) <==>
      OnlineRow(rows, name).Some? && OnlineRow(rows, name).value.balance as real >= pay
  {
    hide OnlineRow, UniqueNames;
    forall c ensures OnlineRow(rows, name) == Some(c) <==> c in rows && c.username == name && c.onlineStatus == 1 {
      OnlineRowIs(rows, name, c);
    }
  }

  /** Which transfers are accepted and which are refused, and why; a refused one
      leaves the table alone. */
  lemma TransferDecision(rows: seq<Client>, snd: string, rcv: string, pay: real)
    requires UniqueNames(rows)
    ensures var r := Transfer(rows, snd, rcv, pay);
      var fair := snd != rcv && pay > 0.0 && IsOnline(rows, snd) && IsOnline(rows, rcv);
      && (r.status == TRANSFER_OK <==> fair && CanAfford(rows, snd, pay))
      && (r.status == TRANSFER_SENDER_BANKRUPT <==> fair && !CanAfford(rows, snd, pay))
      && (r.status == TRANSFER_SELF_FAIL <==> snd == rcv)
      && (r.status == TRANSFER_FAIL <==> snd != rcv && !fair)
      && (r.status != TRANSFER_OK ==> r.rows == rows)
  {
    hide OnlineRow, UniqueNames, IsOnline, CanAfford, Update;
    OnlineIff(rows, snd, pay);
    OnlineIff(rows, rcv, pay);
  }

  // ---------------------------------------------------------------- user_login

  /** Which logins are accepted and which are refused, and why. */
  lemma LoginDecision(rows: seq<Client>, name: string, ip: string, publicPort: int, privatePort: int)
    requires UniqueNames(rows)
    ensures var r := Login(rows, name, ip, publicPort, privatePort);
      && (r.status == LOGIN_AUTH_FAIL <==> forall c | c in rows :: c.username != name)
      && (r.status == LOGIN_EXIST <==> IsOnline(rows, name))
      && (r.status == LOGIN_SUCCESS <==> (exists c :: c in rows && c.username == name) && !IsOnline(rows, name))
      && (r.status != LOGIN_SUCCESS ==> r.rows == rows)
  {
    OnlineIff(rows, name, 0.0);
    hide Update, IsOnline;
  }
}
