/** Every step of the payment protocol keeps the invariant. */
module ProtocolSteps {
  import opened Wrappers
  import opened Ledger
  import LedgerRuns
  import opened Commands
  import opened Server
  import opened SessionIndex
  import opened Protocol
  import opened ProtocolInvariants
  import opened ProtocolData

  // ---------------------------------------------------------------- queues of payments

  /** What a message relies on: its payment and its payer. */
  ghost predicate Unmoved(agents: Agents, pays: Payments, agents': Agents, pays': Payments, id: PayId) {
    id in pays && id.client in agents && agents[id.client].main == AwaitPay(id) ==>
      && id in pays' && pays'[id] == pays[id]
      && id.client in agents'
      && agents'[id.client].main == agents[id.client].main && agents'[id.client].name == agents[id.client].name
  }

  /** No payment but `moved` is touched. */
  ghost predicate OnlyMoved(agents: Agents, pays: Payments, agents': Agents, pays': Payments, moved: Option<PayId>) {
    forall id :: moved != Some(id) ==> Unmoved(agents, pays, agents', pays', id)
  }

  lemma TokensStay(agents: Agents, pays: Payments, agents': Agents, pays': Payments,
                                      moved: Option<PayId>, queue: seq<Up>, at: Place)
    requires TokensIn(agents, pays, queue, at) && OnlyMoved(agents, pays, agents', pays', moved)
    requires moved.Some? && moved.value in pays ==> pays[moved.value].at != at
    ensures TokensIn(agents', pays', queue, at)
  {
  }

  lemma TokensTail(agents: Agents, pays: Payments, agents': Agents, pays': Payments,
                                      queue: seq<Up>, at: Place)
    requires queue != [] && TokensIn(agents, pays, queue, at)
    requires OnlyMoved(agents, pays, agents', pays', queue[0].id)
    ensures TokensIn(agents', pays', queue[1..], at)
  {
  }

  lemma TokensAppend(agents: Agents, pays: Payments, agents': Agents, pays': Payments,
                                        queue: seq<Up>, u: Up, at: Place)
    requires TokensIn(agents, pays, queue, at) && OnlyMoved(agents, pays, agents', pays', u.id)
    requires u.id.Some? && u.id.value in pays ==> pays[u.id.value].at != at
    requires u.id.Some? ==> TokenOk(agents', pays', u, at)
    ensures TokensIn(agents', pays', queue + [u], at)
  {
    TokensStay(agents, pays, agents', pays', u.id, queue, at);
    forall i | 0 <= i < |queue| && queue[i].id.Some? ensures queue[i].id != u.id {
      assert TokenOk(agents, pays, queue[i], at);
    }
  }

  /** The queues of a process that the step leaves alone. */
  lemma QueuesStay(agents: Agents, pays: Payments, agents': Agents, pays': Payments,
                                      moved: Option<PayId>, p: Connection)
    requires TokenInv(agents, pays) && OnlyMoved(agents, pays, agents', pays', moved) && p in agents && p in agents'
    requires agents'[p].inbox == agents[p].inbox && agents'[p].up == agents[p].up
    requires moved.Some? && moved.value in pays ==> pays[moved.value].at != AtPeer(p) && pays[moved.value].at != Forwarded(p)
    ensures AllPayments(agents'[p].inbox)
    ensures TokensIn(agents', pays', agents'[p].inbox, AtPeer(p)) && TokensIn(agents', pays', agents'[p].up, Forwarded(p))
  {
    TokensStay(agents, pays, agents', pays', moved, agents[p].inbox, AtPeer(p));
    TokensStay(agents, pays, agents', pays', moved, agents[p].up, Forwarded(p));
  }

  ghost predicate QueuesOk(agents: Agents, pays: Payments, p: Connection) {
    && p in agents && AllPayments(agents[p].inbox)
    && TokensIn(agents, pays, agents[p].inbox, AtPeer(p))
    && TokensIn(agents, pays, agents[p].up, Forwarded(p))
  }

  /** A step that touches the queues of one process only. */
  lemma OthersStay(agents: Agents, pays: Payments, agents': Agents, pays': Payments,
                                      moved: Option<PayId>, touched: Connection)
    requires TokenInv(agents, pays) && OnlyMoved(agents, pays, agents', pays', moved)
    requires forall p | p in agents' && p != touched ::
      p in agents && agents'[p].inbox == agents[p].inbox && agents'[p].up == agents[p].up
    requires moved.Some? && moved.value in pays ==> pays[moved.value].at in {AtPeer(touched), Forwarded(touched)}
    requires QueuesOk(agents', pays', touched)
    ensures TokenInv(agents', pays')
  {
    hide TokensIn, OnlyMoved, AllPayments;
    forall p | p in agents' && p != touched ensures QueuesOk(agents', pays', p) {
      QueuesStay(agents, pays, agents', pays', moved, p);
    }
  }

  // ---------------------------------------------------------------- tokens, step by step

  lemma ConnectTokens(agents: Agents, pays: Payments, c: Connection)
    requires TokenInv(agents, pays) && c !in agents
    ensures TokenInv(agents[c := FRESH_AGENT], pays)
  {
  }

  /** One process changes its control, and appends at most a command of its own. */
  lemma ControlTokens(agents: Agents, pays: Payments, c: Connection, a: Agent)
    requires TokenInv(agents, pays) && c in agents
    requires agents[c].main.AwaitPay? && agents[c].main.id in pays ==> pays[agents[c].main.id].at.Settled?
    requires a.inbox == agents[c].inbox
    requires a.up == agents[c].up || exists u: Up :: u.id.None? && a.up == agents[c].up + [u]
    ensures TokenInv(agents[c := a], pays)
  {
    var agents' := agents[c := a];
    var moved := if agents[c].main.AwaitPay? then Some(agents[c].main.id) else None;
    hide TokensIn;
    assert OnlyMoved(agents, pays, agents', pays, moved);
    forall p | p in agents && p != c ensures QueuesOk(agents', pays, p) {
      QueuesStay(agents, pays, agents', pays, moved, p);
    }
    TokensStay(agents, pays, agents', pays, moved, agents[c].inbox, AtPeer(c));
    TokensStay(agents, pays, agents', pays, moved, agents[c].up, Forwarded(c));
    if a.up != agents[c].up {
      var u: Up :| u.id.None? && a.up == agents[c].up + [u];
      OwnTokens(agents', pays, agents[c].up, u, Forwarded(c));
    }
  }

  lemma OwnTokens(agents: Agents, pays: Payments, queue: seq<Up>, u: Up, at: Place)
    requires TokensIn(agents, pays, queue, at) && u.id.None?
    ensures TokensIn(agents, pays, queue + [u], at)
  {
  }

  lemma SendPayTokens(agents: Agents, pays: Payments, c: Connection, peer: Connection, id: PayId,
      req: Request)
    requires TokenInv(agents, pays) && c in agents && peer in agents && agents[c].main.Menu?
    requires id.client == c && id !in pays && req.AskTransfer? && req.snd == agents[c].name
    ensures TokenInv(Handed(agents[c := Payer(agents[c], id)], peer, Up(req, Some(id))), pays[id := Payment(req, AtPeer(peer))])
  {
    var u := Up(req, Some(id));
    var agents' := Handed(agents[c := Payer(agents[c], id)], peer, u);
    var pays' := pays[id := Payment(req, AtPeer(peer))];
    assert TokenOk(agents', pays', u, AtPeer(peer));
    assert OnlyMoved(agents, pays, agents', pays', u.id);
    assert forall p | p in agents' && p != peer ::
      p in agents && agents'[p].inbox == agents[p].inbox && agents'[p].up == agents[p].up;
    assert agents'[peer].inbox == agents[peer].inbox + [u] && agents'[peer].up == agents[peer].up;
    assert TokensIn(agents, pays, agents[peer].inbox, AtPeer(peer)) && TokensIn(agents, pays, agents[peer].up, Forwarded(peer));
    hide TokensIn, OnlyMoved, TokenOk, Handed, Payer;
    TokensStay(agents, pays, agents', pays', u.id, agents[peer].up, Forwarded(peer));
    TokensAppend(agents, pays, agents', pays', agents[peer].inbox, u, AtPeer(peer));
    OthersStay(agents, pays, agents', pays', u.id, peer);
  }

  lemma RelayTokens(agents: Agents, pays: Payments, c: Connection)
    requires TokenInv(agents, pays) && c in agents && agents[c].inbox != []
    ensures TokenInv(ForwardNext(agents, c), Placed(pays, agents[c].inbox[0].id, Forwarded(c)))
  {
    var a, u := agents[c], agents[c].inbox[0];
    var agents', pays' := ForwardNext(agents, c), Placed(pays, u.id, Forwarded(c));
    assert TokenOk(agents, pays, u, AtPeer(c));
    assert TokenOk(agents', pays', u, Forwarded(c));
    assert OnlyMoved(agents, pays, agents', pays', u.id);
    assert forall p | p in agents' && p != c ::
      p in agents && agents'[p].inbox == agents[p].inbox && agents'[p].up == agents[p].up;
    assert agents'[c].inbox == a.inbox[1..] && agents'[c].up == a.up + [u];
    hide TokensIn, OnlyMoved, TokenOk, ForwardNext, Placed;
    TokensTail(agents, pays, agents', pays', a.inbox, AtPeer(c));
    TokensAppend(agents, pays, agents', pays', a.up, u, Forwarded(c));
    OthersStay(agents, pays, agents', pays', u.id, c);
  }

  /** The server takes the next command of connection c and puts a reply on a channel. */
  lemma ServeTokens(agents: Agents, pays: Payments, c: Connection, to: Option<Connection>, d: Down)
    requires TokenInv(agents, pays) && c in agents && agents[c].up != [] && d.id == agents[c].up[0].id
    ensures TokenInv(Deliver(TakeNext(agents, c), to, d), Settle(pays, d.id, d.reply))
  {
    var agents', pays' := Deliver(TakeNext(agents, c), to, d), Settle(pays, d.id, d.reply);
    var u := agents[c].up[0];
    assert u.id.Some? ==> TokenOk(agents, pays, u, Forwarded(c));
    assert OnlyMoved(agents, pays, agents', pays', u.id);
    assert forall p | p in agents' && p != c ::
      p in agents && agents'[p].inbox == agents[p].inbox && agents'[p].up == agents[p].up;
    assert agents'[c].inbox == agents[c].inbox && agents'[c].up == agents[c].up[1..];
    hide TokensIn, OnlyMoved, Deliver, Settle, TakeNext;
    TokensStay(agents, pays, agents', pays', u.id, agents[c].inbox, AtPeer(c));
    TokensTail(agents, pays, agents', pays', agents[c].up, Forwarded(c));
    OthersStay(agents, pays, agents', pays', u.id, c);
  }

  // ---------------------------------------------------------------- clients and sessions, step by step

  lemma OneAgentLink(agents: Agents, sessions: Sessions, pays: Payments, c: Connection, a: Agent)
    requires LinkInv(agents, sessions, pays) && c in agents && Linked(c, a, SessionOf(sessions, c), pays)
    ensures LinkInv(agents[c := a], sessions, pays)
  {
  }

  lemma ConnectLink(agents: Agents, sessions: Sessions, pays: Payments, c: Connection, ip: string,
      port: int)
    requires LinkInv(agents, sessions, pays) && c !in agents
    ensures LinkInv(agents[c := FRESH_AGENT], sessions[c := Session("", ip, port)], pays)
  {
  }

  lemma AwaitsOwn(agents: Agents, sessions: Sessions, pays: Payments, c: Connection)
    requires LinkInv(agents, sessions, pays) && c in agents && agents[c].main.AwaitPay?
    ensures agents[c].main.id.client == c && agents[c].open
    ensures c in sessions && sessions[c].username == agents[c].name != ""
  {
  }

  lemma SendPayLink(agents: Agents, sessions: Sessions, pays: Payments, c: Connection,
      peer: Connection, req: Request)
    requires LinkInv(agents, sessions, pays) && c in agents && agents[c].main.Menu? && agents[c].knowsPeers && peer in agents
    requires PayId(c, agents[c].serial) !in pays
    ensures var id := PayId(c, agents[c].serial);
      LinkInv(Handed(agents[c := Payer(agents[c], id)], peer, Up(req, Some(id))), sessions, pays[id := Payment(req, AtPeer(peer))])
  {
    var id := PayId(c, agents[c].serial);
    var agents', pays' := Handed(agents[c := Payer(agents[c], id)], peer, Up(req, Some(id))), pays[id := Payment(req, AtPeer(peer))];
    forall d | d in agents' ensures Linked(d, agents'[d], SessionOf(sessions, d), pays') {
      hide Linked, Own;
      if d == c {
        LinkedSendPay(c, agents[c], agents'[c], SessionOf(sessions, c), pays, pays');
      } else {
        if agents[d].main.AwaitPay? { AwaitsOwn(agents, sessions, pays, d); }
        LinkedFrame(d, agents[d], agents'[d], SessionOf(sessions, d), pays, pays');
      }
    }
  }

  lemma PlacedAlike(pays: Payments, moved: Option<PayId>, at: Place, id: PayId)
    requires !at.Settled? && (moved.Some? && moved.value in pays ==> !pays[moved.value].at.Settled?)
    ensures Alike(pays, Placed(pays, moved, at), id)
  {
  }

  lemma RelayLink(agents: Agents, sessions: Sessions, pays: Payments, c: Connection)
    requires LinkInv(agents, sessions, pays) && TokenInv(agents, pays) && c in agents && agents[c].inbox != []
    ensures LinkInv(ForwardNext(agents, c), sessions, Placed(pays, agents[c].inbox[0].id, Forwarded(c)))
  {
    var u := agents[c].inbox[0];
    assert u.id.Some? && TokenOk(agents, pays, u, AtPeer(c));
    OwnAppend(agents[c].up, u);
    hide Linked, Own, TokenInv, Placed, Alike;
    var agents', pays' := ForwardNext(agents, c), Placed(pays, u.id, Forwarded(c));
    forall d | d in agents' ensures Linked(d, agents'[d], SessionOf(sessions, d), pays') {
      if agents[d].main.AwaitPay? { PlacedAlike(pays, u.id, Forwarded(c), agents[d].main.id); }
      LinkedFrame(d, agents[d], agents'[d], SessionOf(sessions, d), pays, pays');
    }
  }

  lemma HangupLink(agents: Agents, sessions: Sessions, pays: Payments, c: Connection)
    requires LinkInv(agents, sessions, pays) && c in agents && agents[c].main.Gone?
    ensures LinkInv(agents, sessions - {c}, pays)
  {
  }

  // ---------------------------------------------------------------- serving a command

  /** The client's own command: only it and its session change. */
  lemma ServeOwnLink(agents: Agents, sessions: Sessions, pays: Payments, rows: seq<Client>,
      fds: Fds, c: Connection)
    requires LinkInv(agents, sessions, pays) && ValidRows(rows) && c in agents && c in sessions
    requires agents[c].up != [] && agents[c].up[0].id.None?
    ensures var k, u := sessions[c], agents[c].up[0];
      var r := React(rows, fds, c, k.ip, k.port, k.username, u.req);
      LinkInv(Deliver(TakeNext(agents, c), r.to, Down(r.reply, u.id)), SessionsAfter(sessions, c, r), Settle(pays, u.id, r.reply))
  {
    var a, k, u := agents[c], sessions[c], agents[c].up[0];
    var r := React(rows, fds, c, k.ip, k.port, k.username, u.req);
    LinkedOwn(c, a, k, pays, rows, fds);
    hide Linked, React, Own, ValidRows;
    var sessions' := SessionsAfter(sessions, c, r);
    assert SessionOf(sessions', c) == if r.ends then None else Some(k.(username := r.username));
    assert forall d | d != c :: SessionOf(sessions', d) == SessionOf(sessions, d);
  }

  lemma LinkedSettled(c: Connection, a: Agent, a': Agent, k: Option<Session>,
                                         pays: Payments, pays': Payments, status: int)
    requires Linked(c, a, k, pays) && a.main.AwaitPay? && a' == a.(up := a'.up) && Own(a'.up) == Own(a.up)
    requires a.main.id in pays && !pays[a.main.id].at.Settled?
    requires a.main.id in pays' && pays'[a.main.id].at == Settled(status)
    ensures Linked(c, a'.(down := a'.down + [Down(TransferReply(status), Some(a.main.id))]), k, pays')
  {
  }

  /** A payment is settled: the reply goes to its payer. */
  lemma ServePayLink(agents: Agents, sessions: Sessions, pays: Payments, c: Connection, status: int)
    requires LinkInv(agents, sessions, pays) && c in agents && agents[c].up != [] && agents[c].up[0].id.Some?
    requires TokenOk(agents, pays, agents[c].up[0], Forwarded(c))
    ensures var id := agents[c].up[0].id; var reply := TransferReply(status);
      LinkInv(Deliver(TakeNext(agents, c), Some(id.value.client), Down(reply, id)), sessions, Settle(pays, id, reply))
  {
    hide Linked, Own;
    var u := agents[c].up[0];
    var id, reply := u.id.value, TransferReply(status);
    var agents', pays' := Deliver(TakeNext(agents, c), Some(id.client), Down(reply, u.id)), Settle(pays, u.id, reply);
    OwnTail(agents[c].up);
    forall d | d in agents' ensures Linked(d, agents'[d], SessionOf(sessions, d), pays') {
      var k, b := SessionOf(sessions, d), agents[d];
      var b' := if d == c then b.(up := b.up[1..]) else b;
      assert agents'[d] == if d == id.client then b'.(down := b'.down + [Down(reply, u.id)]) else b';
      hide Deliver, TakeNext;
      if d == id.client {
        LinkedSettled(d, b, b', k, pays, pays', status);
      } else {
        if b.main.AwaitPay? { AwaitsOwn(agents, sessions, pays, d); }
        LinkedFrame(d, b, b', k, pays, pays');
      }
    }
  }

  lemma {:induction false} OwnTail(up: seq<Up>)
    requires up != [] && up[0].id.Some?
    ensures Own(up) == Own(up[1..])
  {
  }

  /** For a payment that the server reads, the payer waits, is logged in, and is
      the one that client_fds names. */
  lemma PayerIsKnown(s: Sys, c: Connection)
    requires IndexInv(s.rows, s.fds, s.sessions) && LinkInv(s.agents, s.sessions, s.pays) && TokenInv(s.agents, s.pays)
    requires CanServe(s, c) && s.agents[c].up[0].id.Some?
    ensures var u := s.agents[c].up[0]; var x := u.id.value.client;
      && TokenOk(s.agents, s.pays, u, Forwarded(c))
      && x in s.sessions && s.sessions[x].username == u.req.snd != ""
      && FdOf(s.fds, u.req.snd) == Some(x)
      && Row(s.rows, u.req.snd).Some?
  {
    var u := s.agents[c].up[0];
    assert TokensIn(s.agents, s.pays, s.agents[c].up, Forwarded(c));
    assert TokenOk(s.agents, s.pays, u, Forwarded(c));
    var x := u.id.value.client;
    AwaitsOwn(s.agents, s.sessions, s.pays, x);
    hide Linked, TokensIn;
    assert (u.req.snd, x) in s.fds;
    FdOfEntry(s.fds, u.req.snd, x);
    RowsAtAddress(s.rows, s.fds, s.sessions, x);
  }

  // ---------------------------------------------------------------- history, step by step

  lemma TimesAppend(log: seq<Settlement>, e: Settlement, id: PayId)
    ensures Times(log + [e], id) == Times(log, id) + if e.id == Some(id) then 1 else 0
    ensures Entries(log + [e]) == Entries(log) + [e.entry]
  {
    assert (log + [e])[..|log|] == log;
  }

  /** Settling a payment applies it at most once. */
  lemma ServeLog(pays: Payments, log: seq<Settlement>, u: Up, status: int)
    requires LogInv(pays, log) && u.id.Some? && u.id.value in pays && !pays[u.id.value].at.Settled?
    requires u.req.AskTransfer? && pays[u.id.value].req == u.req
    ensures LogInv(Settle(pays, u.id, TransferReply(status)), Record(log, u, TransferReply(status)))
  {
    var pays', log' := Settle(pays, u.id, TransferReply(status)), Record(log, u, TransferReply(status));
    forall i | 0 <= i < |log'| ensures Recorded(pays', log'[i]) {
      if i < |log| { assert log'[i] == log[i] && Recorded(pays, log[i]); }
    }
    hide Recorded;
    forall id ensures Times(log', id) == if Applied(pays', id) then 1 else 0 {
      if status == TRANSFER_OK { TimesAppend(log, log'[|log|], id); }
      assert id != u.id.value ==> (Applied(pays', id) <==> Applied(pays, id));
    }
  }

  /** The main threads and their payment counters. */
  ghost predicate SameControl(agents: Agents, agents': Agents) {
    forall c | c in agents :: c in agents' && agents'[c].main == agents[c].main && agents'[c].serial == agents[c].serial
  }

  lemma PayFrame(agents: Agents, pays: Payments, agents': Agents, pays': Payments,
      answers: map<PayId, string>)
    requires PayInv(agents, pays, answers) && SameControl(agents, agents')
    requires pays'.Keys == pays.Keys && forall id | id in pays :: pays'[id].req == pays[id].req
    requires forall id | id in pays && pays[id].at.Settled? :: pays'[id] == pays[id]
    ensures PayInv(agents', pays', answers)
  {
  }

  lemma ControlPay(agents: Agents, pays: Payments, answers: map<PayId, string>, c: Connection,
      a: Agent)
    requires PayInv(agents, pays, answers) && c in agents && !agents[c].main.AwaitPay? && a.serial == agents[c].serial
    ensures PayInv(agents[c := a], pays, answers)
  {
  }

  lemma SendPayPay(agents: Agents, pays: Payments, answers: map<PayId, string>, c: Connection,
      peer: Connection, req: Request)
    requires PayInv(agents, pays, answers) && c in agents && agents[c].main.Menu? && peer in agents
    requires req.AskTransfer? && LedgerRuns.Whole(req.amount)
    ensures var id := PayId(c, agents[c].serial);
      && id !in pays
      && PayInv(Handed(agents[c := Payer(agents[c], id)], peer, Up(req, Some(id))), pays[id := Payment(req, AtPeer(peer))], answers)
  {
    hide ReplyText;
    var id := PayId(c, agents[c].serial);
    var sent := agents[c := Payer(agents[c], id)];
    var pays' := pays[id := Payment(req, AtPeer(peer))];
    assert id !in pays;
    assert PayInv(sent, pays', answers);
    PayFrame(sent, pays', Handed(sent, peer, Up(req, Some(id))), pays', answers);
  }

  /** A payer reads the reply to its payment. */
  lemma ReadPay(agents: Agents, sessions: Sessions, pays: Payments, answers: map<PayId, string>,
      c: Connection)
    requires PayInv(agents, pays, answers) && LinkInv(agents, sessions, pays)
    requires c in agents && agents[c].main.AwaitPay? && agents[c].down != []
    ensures PayInv(agents[c := AfterRead(agents[c])], pays, answers[agents[c].main.id := ReplyText(agents[c].down[0].reply)])
  {
    hide ReplyText, LinkInv, LedgerRuns.Whole;
    ReadSettled(agents, sessions, pays, c);
    var a, id := AfterRead(agents[c]), agents[c].main.id;
    var text := ReplyText(agents[c].down[0].reply);
    assert a.serial == agents[c].serial && a.main.Menu?;
    assert text == ReplyText(TransferReply(pays[id].at.status));
    hide AfterRead;
    AnsweredPay(agents, pays, answers, c, a, text);
  }

  lemma AnsweredPay(agents: Agents, pays: Payments, answers: map<PayId, string>, c: Connection,
      a: Agent, text: string)
    requires PayInv(agents, pays, answers) && c in agents && agents[c].main.AwaitPay? && a.serial == agents[c].serial
    requires var id := agents[c].main.id; id in pays && pays[id].at.Settled? && text == ReplyText(TransferReply(pays[id].at.status))
    ensures PayInv(agents[c := a], pays, answers[agents[c].main.id := text])
  {
  }

  lemma ReadSettled(agents: Agents, sessions: Sessions, pays: Payments, c: Connection)
    requires LinkInv(agents, sessions, pays) && c in agents && agents[c].main.AwaitPay? && agents[c].down != []
    ensures var id := agents[c].main.id;
      id in pays && pays[id].at.Settled? && agents[c].down == [Down(TransferReply(pays[id].at.status), Some(id))]
  {
  }

  lemma LinkedOf(agents: Agents, sessions: Sessions, pays: Payments, c: Connection)
    requires LinkInv(agents, sessions, pays) && c in agents
    ensures Linked(c, agents[c], SessionOf(sessions, c), pays)
  {
  }

  lemma HeadOfInbox(agents: Agents, pays: Payments, c: Connection)
    requires TokenInv(agents, pays) && c in agents && agents[c].inbox != []
    ensures agents[c].inbox[0].id.Some? && TokenOk(agents, pays, agents[c].inbox[0], AtPeer(c))
  {
  }

  // ---------------------------------------------------------------- the invariant, step by step

  lemma InvConnect(s: Sys, c: Connection, ip: string, port: int)
    requires Inv(s) && Enabled(s, Connect(c, ip, port))
    ensures Inv(Apply(s, Connect(c, ip, port)))
  {
    hide IndexInv, LinkInv, TokenInv, PayInv, LogInv, FRESH_AGENT, LedgerRuns.BookInv, Entries;
    IndexConnect(s.rows, s.fds, s.sessions, c, ip, port);
    ConnectLink(s.agents, s.sessions, s.pays, c, ip, port);
    ConnectTokens(s.agents, s.pays, c);
    PayFrame(s.agents, s.pays, s.agents[c := FRESH_AGENT], s.pays, s.answers);
  }

  /** A step of one main thread that does not touch its peer socket. */
  lemma InvControl(s: Sys, c: Connection, a: Agent)
    requires Inv(s) && c in s.agents && !s.agents[c].main.AwaitPay?
    requires Linked(c, a, SessionOf(s.sessions, c), s.pays)
    requires a.serial == s.agents[c].serial && a.inbox == s.agents[c].inbox
    requires a.up == s.agents[c].up || exists u: Up :: u.id.None? && a.up == s.agents[c].up + [u]
    ensures Inv(s.(agents := s.agents[c := a]))
  {
    hide IndexInv, LinkInv, TokenInv, PayInv, LogInv, Linked, LedgerRuns.BookInv, Entries;
    OneAgentLink(s.agents, s.sessions, s.pays, c, a);
    ControlTokens(s.agents, s.pays, c, a);
    ControlPay(s.agents, s.pays, s.answers, c, a);
  }

  lemma InvSend(s: Sys, c: Connection, cmd: Command)
    requires Inv(s) && Enabled(s, Send(c, cmd))
    ensures Inv(Apply(s, Send(c, cmd)))
  {
    hide DataInv, LinkInv, TokenInv, PayInv, LogInv, Linked, Sent;
    var a, a' := s.agents[c], AfterSend(s.agents[c], cmd);
    LinkedOf(s.agents, s.sessions, s.pays, c);
    LinkedSend(c, a, SessionOf(s.sessions, c), s.pays, cmd);
    assert a'.up == a.up + [Up(Sent(cmd), None)];
    InvControl(s, c, a');
  }

  lemma InvSendPay(s: Sys, c: Connection, peer: Connection, rcv: string, amount: int)
    requires Inv(s) && Enabled(s, SendPay(c, peer, rcv, amount))
    ensures Inv(ApplySendPay(s, c, peer, rcv, amount))
  {
    hide DataInv, LinkInv, TokenInv, PayInv, LogInv, Sent, Handed, Payer, Applied;
    var a := s.agents[c];
    var id, req := PayId(c, a.serial), PaymentOf(a, rcv, amount);
    SentMeans(Pay(a.name, amount, rcv));
    SendPayPay(s.agents, s.pays, s.answers, c, peer, req);
    SendPayLink(s.agents, s.sessions, s.pays, c, peer, req);
    SendPayTokens(s.agents, s.pays, c, peer, id, req);
    LogNew(s.pays, id, Payment(req, AtPeer(peer)), s.log);
    SendPayData(s, c, peer, rcv, amount);
  }

  lemma SendPayData(s: Sys, c: Connection, peer: Connection, rcv: string, amount: int)
    requires DataInv(s) && Enabled(s, SendPay(c, peer, rcv, amount))
    ensures DataInv(ApplySendPay(s, c, peer, rcv, amount))
  {
  }

  lemma LogNew(pays: Payments, id: PayId, pay: Payment, log: seq<Settlement>)
    requires LogInv(pays, log) && id !in pays && !pay.at.Settled?
    ensures LogInv(pays[id := pay], log)
  {
  }

  lemma LogPlaced(pays: Payments, id: Option<PayId>, at: Place, log: seq<Settlement>)
    requires LogInv(pays, log) && !at.Settled? && (id.Some? && id.value in pays ==> !pays[id.value].at.Settled?)
    ensures LogInv(Placed(pays, id, at), log)
  {
  }

  lemma PayPlaced(agents: Agents, pays: Payments, answers: map<PayId, string>, agents': Agents,
      id: Option<PayId>, at: Place)
    requires PayInv(agents, pays, answers) && SameControl(agents, agents')
    requires id.Some? && id.value in pays ==> !pays[id.value].at.Settled?
    ensures PayInv(agents', Placed(pays, id, at), answers)
  {
    hide PayInv, SameControl;
    PayFrame(agents, pays, agents', Placed(pays, id, at), answers);
  }

  lemma InvRelay(s: Sys, c: Connection)
    requires Inv(s) && Enabled(s, Relay(c))
    ensures Inv(ApplyRelay(s, c))
  {
    hide IndexInv, LinkInv, TokenInv, PayInv, LogInv, LedgerRuns.BookInv, Entries;
    HeadOfInbox(s.agents, s.pays, c);
    var id, agents' := s.agents[c].inbox[0].id, ForwardNext(s.agents, c);
    RelayLink(s.agents, s.sessions, s.pays, c);
    RelayTokens(s.agents, s.pays, c);
    assert SameControl(s.agents, agents');
    hide ForwardNext, SameControl, Placed;
    PayPlaced(s.agents, s.pays, s.answers, agents', id, Forwarded(c));
    LogPlaced(s.pays, id, Forwarded(c), s.log);
  }

  lemma InvRead(s: Sys, c: Connection)
    requires Inv(s) && Enabled(s, Read(c))
    ensures Inv(ApplyRead(s, c))
  {
    hide IndexInv, LinkInv, TokenInv, PayInv, LogInv, Linked, LedgerRuns.BookInv, Entries, Accepted, ReplyText;
    var a := s.agents[c];
    LinkedOf(s.agents, s.sessions, s.pays, c);
    LinkedRead(c, a, SessionOf(s.sessions, c), s.pays);
    if a.main.Await? {
      InvControl(s, c, AfterRead(a));
    } else {
      OneAgentLink(s.agents, s.sessions, s.pays, c, AfterRead(a));
      ReadSettled(s.agents, s.sessions, s.pays, c);
      ReadPay(s.agents, s.sessions, s.pays, s.answers, c);
      ControlTokens(s.agents, s.pays, c, AfterRead(a));
    }
  }

  lemma InvCrash(s: Sys, c: Connection)
    requires Inv(s) && Enabled(s, Crash(c))
    ensures Inv(Apply(s, Crash(c)))
  {
    hide DataInv, LinkInv, TokenInv, PayInv, LogInv, Linked;
    LinkedOf(s.agents, s.sessions, s.pays, c);
    LinkedCrash(c, s.agents[c], SessionOf(s.sessions, c), s.pays);
    InvControl(s, c, s.agents[c].(main := Gone));
  }

  lemma InvHangup(s: Sys, c: Connection)
    requires Inv(s) && Enabled(s, Hangup(c))
    ensures Inv(ApplyHangup(s, c))
  {
    hide IndexInv, LinkInv, TokenInv, PayInv, LogInv, Logout, Erase, LedgerRuns.BookInv, Entries;
    var k := s.sessions[c];
    IndexEnd(s.rows, s.fds, s.sessions, c);
    HangupLink(s.agents, s.sessions, s.pays, c);
    LedgerRuns.LogoutInv(LedgerRuns.Book(s.rows, Entries(s.log)), k.ip, k.port);
  }

  // ---------------------------------------------------------------- the invariant, serving a command

  lemma BookRows(b: LedgerRuns.Book)
    requires LedgerRuns.BookInv(b)
    ensures ValidRows(b.rows)
  {
  }

  lemma OwnIsNoTransfer(agents: Agents, sessions: Sessions, pays: Payments, c: Connection)
    requires LinkInv(agents, sessions, pays) && c in agents && c in sessions && agents[c].up != [] && agents[c].up[0].id.None?
    ensures var req := agents[c].up[0].req;
      !req.AskTransfer? && (req.AskLogin? ==> req.name != "" && sessions[c].username == "")
  {
  }

  /** The table, client_fds, the sessions and the log. */
  lemma ServeData(s: Sys, c: Connection)
    requires Inv(s) && CanServe(s, c)
    ensures DataInv(ApplyServe(s, c))
  {
    hide IndexInv, LinkInv, TokenInv, PayInv, LogInv, React, LedgerRuns.BookInv, ValidRows, Settle, Deliver, TakeNext,
         TokenOk;
    var k, u, r := s.sessions[c], s.agents[c].up[0], Reacts(s, c);
    var b := LedgerRuns.Book(s.rows, Entries(s.log));
    if u.id.Some? { HeadIsTransfer(s.agents, s.pays, c); } else { OwnIsNoTransfer(s.agents, s.sessions, s.pays, c); }
    BookRows(b);
    ReactKeepsIndex(s.rows, s.fds, s.sessions, c, u.req);
    ReactKeepsBook(b, s.fds, c, k, u.req);
    RecordEntries(s.log, u, r.reply);
  }

  lemma HeadIsTransfer(agents: Agents, pays: Payments, c: Connection)
    requires TokenInv(agents, pays) && c in agents && agents[c].up != [] && agents[c].up[0].id.Some?
    ensures agents[c].up[0].req.AskTransfer?
  {
  }

  lemma UnsettledHead(agents: Agents, pays: Payments, c: Connection)
    requires TokenInv(agents, pays) && c in agents && agents[c].up != [] && agents[c].up[0].id.Some?
    ensures var u := agents[c].up[0];
      u.id.value in pays && !pays[u.id.value].at.Settled? && pays[u.id.value].req == u.req
  {
  }

  lemma RecordEntries(log: seq<Settlement>, u: Up, reply: Reply)
    ensures Entries(Record(log, u, reply)) ==
      if u.req.AskTransfer? && reply == TransferReply(TRANSFER_OK)
      then Entries(log) + [LedgerRuns.Entry(u.req.snd, u.req.rcv, u.req.amount)] else Entries(log)
  {
  }

  lemma ServeControl(agents: Agents, c: Connection, to: Option<Connection>, d: Down)
    requires c in agents && agents[c].up != []
    ensures SameControl(agents, Deliver(TakeNext(agents, c), to, d))
  {
  }

  lemma InvServeOwn(s: Sys, c: Connection)
    requires Inv(s) && CanServe(s, c) && s.agents[c].up[0].id.None?
    ensures Inv(ApplyServe(s, c))
  {
    hide IndexInv, LinkInv, TokenInv, PayInv, LogInv, DataInv, React, Deliver, TakeNext, SameControl, SessionsAfter;
    ServeData(s, c);
    var u, r := s.agents[c].up[0], Reacts(s, c);
    OwnIsNoTransfer(s.agents, s.sessions, s.pays, c);
    DataRows(s);
    ServeOwnLink(s.agents, s.sessions, s.pays, s.rows, s.fds, c);
    ServeTokens(s.agents, s.pays, c, r.to, Down(r.reply, u.id));
    ServeControl(s.agents, c, r.to, Down(r.reply, u.id));
    PayFrame(s.agents, s.pays, Deliver(TakeNext(s.agents, c), r.to, Down(r.reply, u.id)), s.pays, s.answers);
  }

  lemma DataRows(s: Sys)
    requires DataInv(s)
    ensures ValidRows(s.rows) && IndexInv(s.rows, s.fds, s.sessions)
  {
  }

  lemma ReactsToTransfer(s: Sys, c: Connection)
    requires CanServe(s, c) && s.agents[c].up[0].req.AskTransfer?
    ensures var req, r := s.agents[c].up[0].req, Reacts(s, c);
      && r.to == FdOf(s.fds, req.snd) && r.reply == TransferReply(Transfer(s.rows, req.snd, req.rcv, req.amount).status)
      && r.fds == s.fds && SessionsAfter(s.sessions, c, r) == s.sessions
  {
    hide Transfer, FdOf;
    assert s.sessions[c := s.sessions[c]] == s.sessions;
  }

  lemma InvServePay(s: Sys, c: Connection)
    requires Inv(s) && CanServe(s, c) && s.agents[c].up[0].id.Some?
    ensures Inv(ApplyServe(s, c))
  {
    hide IndexInv, LinkInv, TokenInv, PayInv, LogInv, DataInv, Reacts, Transfer, Deliver, TakeNext, SameControl, FdOf,
         Row, SessionsAfter, TokenOk, ValidRows, Placed;
    ServeData(s, c);
    DataRows(s);
    PayerIsKnown(s, c);
    HeadIsTransfer(s.agents, s.pays, c);
    UnsettledHead(s.agents, s.pays, c);
    ReactsToTransfer(s, c);
    var u, r := s.agents[c].up[0], Reacts(s, c);
    ServePayLink(s.agents, s.sessions, s.pays, c, r.reply.status);
    ServeTokens(s.agents, s.pays, c, r.to, Down(r.reply, u.id));
    ServeControl(s.agents, c, r.to, Down(r.reply, u.id));
    PayPlaced(s.agents, s.pays, s.answers, Deliver(TakeNext(s.agents, c), r.to, Down(r.reply, u.id)), u.id, Settled(r.reply.status));
    ServeLog(s.pays, s.log, u, r.reply.status);
  }

  // ---------------------------------------------------------------- every reachable state

  lemma InvStep(s: Sys, step: Step)
    requires Inv(s) && Enabled(s, step)
    ensures Inv(Apply(s, step))
  {
    hide Inv, AfterSend, ApplySendPay, ApplyRelay, ApplyServe, ApplyHangup, ApplyRead;
    match step
    case Connect(c, ip, port) => InvConnect(s, c, ip, port);
    case Send(c, cmd) => InvSend(s, c, cmd);
    case SendPay(c, peer, rcv, amount) => InvSendPay(s, c, peer, rcv, amount);
    case Relay(c) => InvRelay(s, c);
    case Serve(c) => if s.agents[c].up[0].id.None? { InvServeOwn(s, c); } else { InvServePay(s, c); }
    case Hangup(c) => InvHangup(s, c);
    case Read(c) => InvRead(s, c);
    case Crash(c) => InvCrash(s, c);
  }

  lemma InvInit()
    ensures Inv(INIT)
  {
  }

  lemma {:induction false} InvAfter(s: Sys, steps: seq<Step>)
    requires Inv(s) && Run(s, steps)
    ensures Inv(After(s, steps))
    decreases |steps|
  {
    hide Inv, Enabled, Apply;
    if steps != [] {
      InvStep(s, steps[0]);
      InvAfter(Apply(s, steps[0]), steps[1..]);
    }
  }

  lemma InvReachable(s: Sys)
    requires Reachable(s)
    ensures Inv(s)
  {
    hide Inv;
    var steps :| Run(INIT, steps) && After(INIT, steps) == s;
    InvInit();
    InvAfter(INIT, steps);
  }
}
