/** Sessions, online rows and client_fds of src/server.cpp stay in one-to-one
    correspondence, whatever a session reads and however it ends. */
module SessionIndex {
  import opened Wrappers
  import opened Ledger
  import opened Commands
  import opened Server
  import LedgerRuns

  /** A live session: its user ("" before login) and the address of its peer. */
  datatype Session = Session(username: string, ip: string, port: int)

  type Sessions = map<Connection, Session>

  /** The row of u is online at the session's address. */
  predicate OnlineFor(rows: seq<Client>, u: string, k: Session) {
    var r := OnlineRow(rows, u);
    r.Some? && r.value.ip == k.ip && r.value.publicPort == k.port
  }

  ghost predicate EntriesOk(rows: seq<Client>, fds: Fds, sessions: Sessions) {
    forall j | 0 <= j < |fds| ::
      && fds[j].0 != ""
      && fds[j].1 in sessions
      && sessions[fds[j].1].username == fds[j].0
      && OnlineFor(rows, fds[j].0, sessions[fds[j].1])
  }

  ghost predicate DistinctNames(fds: Fds) {
    forall i, j | 0 <= i < j < |fds| :: fds[i].0 != fds[j].0
  }

  ghost predicate SessionsIndexed(fds: Fds, sessions: Sessions) {
    forall c | c in sessions && sessions[c].username != "" :: (sessions[c].username, c) in fds
  }

  ghost predicate RowsIndexed(rows: seq<Client>, fds: Fds) {
    forall k | 0 <= k < |rows| && rows[k].onlineStatus == 1 :: exists j :: 0 <= j < |fds| && fds[j].0 == rows[k].username
  }

  ghost predicate DistinctEndpoints(sessions: Sessions) {
    forall c, d | c in sessions && d in sessions && c != d ::
      sessions[c].ip != sessions[d].ip || sessions[c].port != sessions[d].port
  }

  /** Online rows, logged-in live sessions and entries of client_fds correspond
      one to one by user name, and live sessions have distinct addresses. */
  ghost predicate IndexInv(rows: seq<Client>, fds: Fds, sessions: Sessions) {
    && UniqueNames(rows)
    && EntriesOk(rows, fds, sessions)
    && DistinctNames(fds)
    && SessionsIndexed(fds, sessions)
    && RowsIndexed(rows, fds)
    && DistinctEndpoints(sessions)
  }

  // ---------------------------------------------------------------- queries

  lemma {:induction false} NoMatch(rows: seq<Client>, q: Query)
    requires forall k | 0 <= k < |rows| :: !Matches(q, rows[k])
    ensures GetAll(rows, q) == []
  {
    if rows != [] { NoMatch(rows[1..], q); }
  }

  lemma {:induction false} OneMatch(rows: seq<Client>, q: Query, k: nat)
    requires k < |rows| && forall i | 0 <= i < |rows| :: Matches(q, rows[i]) <==> i == k
    ensures GetAll(rows, q) == [rows[k]]
  {
    if k == 0 {
      assert forall i | 0 <= i < |rows| - 1 :: rows[1..][i] == rows[i + 1];
      NoMatch(rows[1..], q);
    } else {
      assert forall i | 0 <= i < |rows| - 1 :: rows[1..][i] == rows[i + 1];
      OneMatch(rows[1..], q, k - 1);
    }
  }

  lemma {:induction false} FdOfEntry(fds: Fds, name: string, c: Connection)
    requires DistinctNames(fds) && (name, c) in fds
    ensures FdOf(fds, name) == Some(c)
  {
  }

  /** The online rows at a session's address: that of its user, if it is logged in. */
  lemma {:induction false} RowsAtAddress(rows: seq<Client>, fds: Fds, sessions: Sessions, c: Connection)
    requires IndexInv(rows, fds, sessions) && c in sessions
    ensures var k := sessions[c];
      GetAll(rows, OnlineAt(k.ip, k.port)) ==
        if k.username == "" then [] else [OnlineRow(rows, k.username).value]
    ensures sessions[c].username != "" ==> OnlineFor(rows, sessions[c].username, sessions[c])
  {
    var k := sessions[c];
    var q := OnlineAt(k.ip, k.port);
    forall i | 0 <= i < |rows| && Matches(q, rows[i]) ensures rows[i].username == k.username && k.username != "" {
      OnlineHere(rows, fds, sessions, c, i);
    }
    if k.username == "" {
      NoMatch(rows, q);
    } else {
      var j :| 0 <= j < |fds| && fds[j] == (k.username, c);
      assert OnlineFor(rows, k.username, k);
      var r := OnlineRow(rows, k.username).value;
      var n :| 0 <= n < |rows| && rows[n] == r;
      OneMatch(rows, q, n);
    }
  }

  lemma OnlineHere(rows: seq<Client>, fds: Fds, sessions: Sessions, c: Connection, i: nat)
    requires IndexInv(rows, fds, sessions) && c in sessions && i < |rows|
    requires Matches(OnlineAt(sessions[c].ip, sessions[c].port), rows[i])
    ensures rows[i].username == sessions[c].username && sessions[c].username != ""
  {
  }

  // ---------------------------------------------------------------- writes

  /** Only the balances of rows change, as in a transfer. */
  ghost predicate SameButBalances(rows: seq<Client>, rows': seq<Client>) {
    |rows'| == |rows| && forall k | 0 <= k < |rows| :: rows'[k] == rows[k].(balance := rows'[k].balance)
  }

  lemma IndexBalances(rows: seq<Client>, rows': seq<Client>, fds: Fds, sessions: Sessions)
    requires IndexInv(rows, fds, sessions) && SameButBalances(rows, rows')
    ensures IndexInv(rows', fds, sessions)
  {
  }

  lemma IndexRegister(rows: seq<Client>, fds: Fds, sessions: Sessions, name: string)
    requires IndexInv(rows, fds, sessions)
    ensures IndexInv(Ledger.Register(rows, name).rows, fds, sessions)
  {
  }

  /** A session that is not logged in yet logs in. */
  lemma IndexLogin(rows: seq<Client>, fds: Fds, sessions: Sessions, c: Connection, name: string,
      privatePort: int)
    requires IndexInv(rows, fds, sessions) && c in sessions && sessions[c].username == "" && name != ""
    ensures var k := sessions[c];
      var r := ReactLogin(rows, fds, c, k.ip, k.port, "", name, privatePort);
      IndexInv(r.rows, r.fds, sessions[c := k.(username := r.username)])
  {
    hide UniqueNames, Update, OnlineFor, EntriesOk, RowsIndexed, GetAll, BalanceOf;
    var k := sessions[c];
    var r := ReactLogin(rows, fds, c, k.ip, k.port, "", name, privatePort);
    if Ledger.Login(rows, name, k.ip, k.port, privatePort).status == LOGIN_SUCCESS {
      var user := Row(rows, name).value.(ip := k.ip, publicPort := k.port, privatePort := privatePort, onlineStatus := 1);
      LoginEntries(rows, fds, sessions, c, user);
      LoginRows(rows, fds, user);
      UpdateKeepsNames(rows, user);
      LoginNames(rows, fds, sessions, c, name, privatePort);
      assert SessionsIndexed(r.fds, sessions[c := k.(username := name)]) by {
        assert r.fds[|fds|] == (name, c);
        assert forall e | e in fds :: e in r.fds;
      }
    } else {
      assert sessions[c := k] == sessions;
    }
  }

  lemma LoginNames(rows: seq<Client>, fds: Fds, sessions: Sessions, c: Connection, name: string,
      privatePort: int)
    requires EntriesOk(rows, fds, sessions) && DistinctNames(fds) && c in sessions
    requires Ledger.Login(rows, name, sessions[c].ip, sessions[c].port, privatePort).status == LOGIN_SUCCESS
    ensures DistinctNames(fds + [(name, c)])
  {
  }

  lemma {:induction false} LoginEntries(rows: seq<Client>, fds: Fds, sessions: Sessions, c: Connection, user: Client)
    requires UniqueNames(rows) && EntriesOk(rows, fds, sessions) && c in sessions && sessions[c].username == ""
    requires OnlineRow(rows, user.username).None? && Row(rows, user.username).Some? && user.username != ""
    requires user.onlineStatus == 1 && user.ip == sessions[c].ip && user.publicPort == sessions[c].port
    ensures EntriesOk(Update(rows, user), fds + [(user.username, c)], sessions[c := sessions[c].(username := user.username)])
  {
    var rows', fds' := Update(rows, user), fds + [(user.username, c)];
    var sessions' := sessions[c := sessions[c].(username := user.username)];
    forall j | 0 <= j < |fds'|
      ensures fds'[j].0 != "" && fds'[j].1 in sessions' && sessions'[fds'[j].1].username == fds'[j].0
      ensures OnlineFor(rows', fds'[j].0, sessions'[fds'[j].1])
    {
      RowAfterUpdate(rows, user, fds'[j].0);
      if j < |fds| {
        assert fds'[j] == fds[j] && OnlineFor(rows, fds[j].0, sessions[fds[j].1]);
      }
    }
  }

  lemma LoginRows(rows: seq<Client>, fds: Fds, user: Client)
    requires RowsIndexed(rows, fds)
    ensures forall c :: RowsIndexed(Update(rows, user), fds + [(user.username, c)])
  {
    forall c ensures RowsIndexed(Update(rows, user), fds + [(user.username, c)]) {
      var rows', fds' := Update(rows, user), fds + [(user.username, c)];
      forall k | 0 <= k < |rows'| && rows'[k].onlineStatus == 1
        ensures exists j :: 0 <= j < |fds'| && fds'[j].0 == rows'[k].username
      {
        if rows[k].username == user.username {
          assert fds'[|fds|].0 == rows'[k].username;
        } else {
          var j :| 0 <= j < |fds| && fds[j].0 == rows[k].username;
          assert fds'[j] == fds[j];
        }
      }
    }
  }

  lemma {:induction false} EraseEntry(fds: Fds, name: string)
    requires DistinctNames(fds)
    ensures forall e :: e in Erase(fds, name) <==> e in fds && e.0 != name
    ensures DistinctNames(Erase(fds, name))
  {
    if fds != [] {
      assert forall i | 0 <= i < |fds| - 1 :: fds[1..][i] == fds[i + 1];
      EraseEntry(fds[1..], name);
      var rest := Erase(fds[1..], name);
      if fds[0].0 == name {
        forall e | e in fds[1..] ensures e.0 != name {
          var i :| 0 <= i < |fds| - 1 && fds[1..][i] == e;
          assert fds[i + 1] == e;
        }
      } else {
        forall j | 0 <= j < |rest| ensures rest[j].0 != fds[0].0 {
          assert rest[j] in fds[1..];
          var i :| 0 <= i < |fds| - 1 && fds[1..][i] == rest[j];
          assert fds[i + 1] == rest[j];
        }
      }
    }
  }

  /** A session ends, by Exit or by a disconnect: its user's row, if any, goes
      offline, its entry goes, and nothing else changes. */
  lemma {:induction false} IndexEnd(rows: seq<Client>, fds: Fds, sessions: Sessions, c: Connection)
    requires IndexInv(rows, fds, sessions) && c in sessions
    ensures var k := sessions[c];
      IndexInv(Logout(rows, k.ip, k.port).rows, Erase(fds, k.username), sessions - {c})
  {
    hide Erase, GetAll, Update, OnlineRow, OnlineFor, UniqueNames, EntriesOk, RowsIndexed, SessionsIndexed;
    var k := sessions[c];
    var rows', fds' := Logout(rows, k.ip, k.port).rows, Erase(fds, k.username);
    RowsAtAddress(rows, fds, sessions, c);
    EraseEntry(fds, k.username);
    if k.username != "" {
      var out := LoggedOut(OnlineRow(rows, k.username).value);
      OnlineRowNamed(rows, k.username);
      UpdateKeepsNames(rows, out);
      EndRows(rows, fds, fds', out);
      EndEntries(rows, rows', fds, fds', sessions, c);
    } else {
      EndEntries(rows, rows', fds, fds', sessions, c);
      SameRowsIndexed(rows, fds, fds', sessions);
    }
    EndSessions(fds, fds', sessions, c);
  }

  lemma {:induction false} OnlineRowNamed(rows: seq<Client>, u: string)
    requires OnlineRow(rows, u).Some?
    ensures OnlineRow(rows, u).value.username == u && Row(rows, u).Some?
  {
  }

  /** Erasing the entry of a session that never logged in erases nothing. */
  lemma SameRowsIndexed(rows: seq<Client>, fds: Fds, fds': Fds, sessions: Sessions)
    requires RowsIndexed(rows, fds) && EntriesOk(rows, fds, sessions)
    requires forall e :: e in fds' <==> e in fds && e.0 != ""
    ensures RowsIndexed(rows, fds')
  {
  }

  lemma EndSessions(fds: Fds, fds': Fds, sessions: Sessions, c: Connection)
    requires DistinctNames(fds) && SessionsIndexed(fds, sessions) && c in sessions
    requires forall e :: e in fds' <==> e in fds && e.0 != sessions[c].username
    ensures SessionsIndexed(fds', sessions - {c})
  {
  }

  lemma EndRows(rows: seq<Client>, fds: Fds, fds': Fds, out: Client)
    requires RowsIndexed(rows, fds) && out.onlineStatus == 0
    requires forall e :: e in fds' <==> e in fds && e.0 != out.username
    ensures RowsIndexed(Update(rows, out), fds')
  {
  }

  lemma {:induction false} EndEntries(rows: seq<Client>, rows': seq<Client>, fds: Fds, fds': Fds, sessions: Sessions,
      c: Connection)
    requires UniqueNames(rows) && EntriesOk(rows, fds, sessions) && c in sessions
    requires rows' == rows || exists out: Client :: out.username == sessions[c].username && Row(rows, out.username).Some? && rows' == Update(rows, out)
    requires forall e :: e in fds' <==> e in fds && e.0 != sessions[c].username
    ensures EntriesOk(rows', fds', sessions - {c})
  {
    forall j | 0 <= j < |fds'|
      ensures fds'[j].0 != "" && fds'[j].1 in sessions - {c} && sessions[fds'[j].1].username == fds'[j].0
      ensures OnlineFor(rows', fds'[j].0, sessions[fds'[j].1])
    {
      assert fds'[j] in fds;
      var i :| 0 <= i < |fds| && fds[i] == fds'[j];
      assert OnlineFor(rows, fds[i].0, sessions[fds[i].1]);
      if rows' != rows {
        var out: Client :| out.username == sessions[c].username && Row(rows, out.username).Some? && rows' == Update(rows, out);
        RowAfterUpdate(rows, out, fds[i].0);
      }
    }
  }

  // ---------------------------------------------------------------- the theorems

  /** A user is online, has a live session and has an entry in client_fds, all or
      none, and the entry is the session's connection. */
  lemma {:induction false} OneToOne(rows: seq<Client>, fds: Fds, sessions: Sessions, u: string)
    requires IndexInv(rows, fds, sessions) && u != ""
    ensures OnlineRow(rows, u).Some? <==> FdOf(fds, u).Some?
    ensures forall c :: FdOf(fds, u) == Some(c) <==> c in sessions && sessions[c].username == u
  {
  }

  /** Two online rows never have the same address. */
  lemma OnlineAddressesDistinct(rows: seq<Client>, fds: Fds, sessions: Sessions, i: nat, j: nat)
    requires IndexInv(rows, fds, sessions) && i < j < |rows|
    requires rows[i].onlineStatus == 1 && rows[j].onlineStatus == 1
    ensures rows[i].ip != rows[j].ip || rows[i].publicPort != rows[j].publicPort
  {
  }

  /** One login for each connection is needed: a session that logs in a second
      time has two online rows at its address, and then its logout finds neither. */
  lemma SecondLoginJams(rows: seq<Client>, fds: Fds, sessions: Sessions, c: Connection,
      name: string, privatePort: int)
    requires IndexInv(rows, fds, sessions) && c in sessions && sessions[c].username != ""
    requires Ledger.Login(rows, name, sessions[c].ip, sessions[c].port, privatePort).status == LOGIN_SUCCESS
    ensures var k := sessions[c];
      var rows' := Ledger.Login(rows, name, k.ip, k.port, privatePort).rows;
      Logout(rows', k.ip, k.port) == Outcome(rows', LOGOUT_FAIL)
  {
    hide IndexInv, GetAll, Update;
    var k := sessions[c];
    RowsAtAddress(rows, fds, sessions, c);
    IndexNames(rows, fds, sessions);
    var second := Row(rows, name).value.(ip := k.ip, publicPort := k.port, privatePort := privatePort, onlineStatus := 1);
    assert k.username != name;
    RowAfterUpdate(rows, second, name);
    RowAfterUpdate(rows, second, k.username);
    TwoMatches(Update(rows, second), OnlineAt(k.ip, k.port), OnlineRow(rows, k.username).value, second);
  }

  lemma IndexNames(rows: seq<Client>, fds: Fds, sessions: Sessions)
    requires IndexInv(rows, fds, sessions)
    ensures UniqueNames(rows)
  {
  }

  lemma {:induction false} TwoMatches(rows: seq<Client>, q: Query, a: Client, b: Client)
    requires a in rows && b in rows && a != b && Matches(q, a) && Matches(q, b)
    ensures |GetAll(rows, q)| != 1
  {
  }

  /** A session that logs out takes exactly its own row offline; one that never
      logged in changes nothing. */
  lemma LogoutIsExact(rows: seq<Client>, fds: Fds, sessions: Sessions, c: Connection)
    requires IndexInv(rows, fds, sessions) && c in sessions
    ensures var k := sessions[c];
      var r := Logout(rows, k.ip, k.port);
      if k.username == "" then r == Outcome(rows, LOGOUT_FAIL)
      else
        && OnlineRow(rows, k.username).Some?
        && r == Outcome(Update(rows, LoggedOut(OnlineRow(rows, k.username).value)), LOGOUT_SUCCESS)
  {
    RowsAtAddress(rows, fds, sessions, c);
  }
}
