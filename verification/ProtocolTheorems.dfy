/** What the payment protocol guarantees in every reachable state of any number of
    clients, whatever peers are chosen and however the steps interleave. */
module ProtocolTheorems {
  import opened Wrappers
  import opened Ledger
  import LedgerRuns
  import opened Commands
  import opened Server
  import opened Queries
  import opened SessionIndex
  import opened Protocol
  import opened ProtocolInvariants
  import opened ProtocolSteps
  import opened ProtocolReplies

  // ---------------------------------------------------------------- no payment is lost

  ghost predicate Has(queue: seq<Up>, id: PayId) {
    exists i :: 0 <= i < |queue| && queue[i].id == Some(id)
  }

  /** The message of an unsettled payment is where the history says. */
  ghost predicate IsAt(agents: Agents, id: PayId, at: Place) {
    match at
    case AtPeer(p) => p in agents && Has(agents[p].inbox, id)
    case Forwarded(p) => p in agents && Has(agents[p].up, id)
    case Settled(_) => true
  }

  ghost predicate Located(agents: Agents, pays: Payments) {
    forall id | id in pays :: IsAt(agents, id, pays[id].at)
  }

  /** A queue keeps its payments, but for one that is moved. */
  ghost predicate Keeps(queue: seq<Up>, queue': seq<Up>, moved: Option<PayId>) {
    forall id :: Some(id) != moved && Has(queue, id) ==> Has(queue', id)
  }

  lemma KeepsAppend(queue: seq<Up>, u: Up, moved: Option<PayId>)
    ensures Keeps(queue, queue + [u], moved)
    ensures u.id.Some? ==> Has(queue + [u], u.id.value)
  {
    assert (queue + [u])[|queue|] == u;
    forall id | Has(queue, id) ensures Has(queue + [u], id) {
      var i :| 0 <= i < |queue| && queue[i].id == Some(id);
      assert (queue + [u])[i].id == Some(id);
    }
  }

  lemma KeepsTail(queue: seq<Up>)
    requires queue != []
    ensures Keeps(queue, queue[1..], queue[0].id)
  {
  }

  lemma LocatedFrame(agents: Agents, pays: Payments, agents': Agents, pays': Payments,
      moved: Option<PayId>)
    requires Located(agents, pays)
    requires agents.Keys <= agents'.Keys
    requires forall p | p in agents :: Keeps(agents[p].inbox, agents'[p].inbox, moved)
    requires forall p | p in agents :: Keeps(agents[p].up, agents'[p].up, moved)
    requires forall id | id in pays' && Some(id) != moved :: id in pays && pays'[id].at == pays[id].at
    requires moved.Some? && moved.value in pays' ==> IsAt(agents', moved.value, pays'[moved.value].at)
    ensures Located(agents', pays')
  {
  }

  lemma LocatedControl(agents: Agents, pays: Payments, c: Connection, a: Agent)
    requires Located(agents, pays)
    requires c in agents ==> a.inbox == agents[c].inbox && Keeps(agents[c].up, a.up, None)
    ensures Located(agents[c := a], pays)
  {
  }

  lemma LocatedSendPay(agents: Agents, pays: Payments, c: Connection, peer: Connection, id: PayId,
      req: Request)
    requires Located(agents, pays) && c in agents && peer in agents && id !in pays
    ensures Located(Handed(agents[c := Payer(agents[c], id)], peer, Up(req, Some(id))), pays[id := Payment(req, AtPeer(peer))])
  {
    hide Has, Located;
    KeepsAppend(agents[peer].inbox, Up(req, Some(id)), Some(id));
    LocatedFrame(agents, pays, Handed(agents[c := Payer(agents[c], id)], peer, Up(req, Some(id))),
                 pays[id := Payment(req, AtPeer(peer))], Some(id));
  }

  lemma LocatedRelay(agents: Agents, pays: Payments, c: Connection)
    requires Located(agents, pays) && TokenInv(agents, pays) && c in agents && agents[c].inbox != []
    ensures Located(ForwardNext(agents, c), Placed(pays, agents[c].inbox[0].id, Forwarded(c)))
  {
    hide Has, Located, TokenInv, Keeps;
    HeadOfInbox(agents, pays, c);
    var u := agents[c].inbox[0];
    KeepsTail(agents[c].inbox);
    KeepsAppend(agents[c].up, u, u.id);
    KeepsAll(u.id);
    LocatedFrame(agents, pays, ForwardNext(agents, c), Placed(pays, u.id, Forwarded(c)), u.id);
  }

  lemma KeepsAll(moved: Option<PayId>)
    ensures forall queue :: Keeps(queue, queue, moved)
  {
  }

  lemma LocatedServe(agents: Agents, pays: Payments, c: Connection, to: Option<Connection>, d: Down)
    requires Located(agents, pays) && c in agents && agents[c].up != [] && d.id == agents[c].up[0].id
    requires d.id.Some? ==> d.reply.TransferReply?
    ensures Located(Deliver(TakeNext(agents, c), to, d), Settle(pays, d.id, d.reply))
  {
    hide Has, Located, Keeps;
    KeepsTail(agents[c].up);
    KeepsAll(d.id);
    LocatedFrame(agents, pays, Deliver(TakeNext(agents, c), to, d), Settle(pays, d.id, d.reply), d.id);
  }

  lemma LocatedStep(s: Sys, step: Step)
    requires Inv(s) && Located(s.agents, s.pays) && Enabled(s, step)
    ensures Located(Apply(s, step).agents, Apply(s, step).pays)
  {
    hide Located, DataInv, LinkInv, TokenInv, LogInv, PayInv, Reacts, Sent, Accepted, Keeps, Has, Handed, Payer,
         Deliver, TakeNext, ForwardNext, Settle;
    KeepsAll(None);
    match step
    case Connect(c, ip, port) => LocatedControl(s.agents, s.pays, c, FRESH_AGENT);
    case Send(c, cmd) =>
      KeepsAppend(s.agents[c].up, Up(Sent(cmd), None), None);
      LocatedControl(s.agents, s.pays, c, AfterSend(s.agents[c], cmd));
    case SendPay(c, peer, rcv, amount) =>
      var id := PayId(c, s.agents[c].serial);
      SentMeans(Pay(s.agents[c].name, amount, rcv));
      SendPayPay(s.agents, s.pays, s.answers, c, peer, PaymentOf(s.agents[c], rcv, amount));
      LocatedSendPay(s.agents, s.pays, c, peer, id, PaymentOf(s.agents[c], rcv, amount));
    case Relay(c) => LocatedRelay(s.agents, s.pays, c);
    case Serve(c) =>
      var u, r := s.agents[c].up[0], Reacts(s, c);
      if u.id.Some? {
        HeadIsTransfer(s.agents, s.pays, c);
        ReactsToTransfer(s, c);
      }
      LocatedServe(s.agents, s.pays, c, r.to, Down(r.reply, u.id));
    case Hangup(c) =>
    case Read(c) => LocatedControl(s.agents, s.pays, c, AfterRead(s.agents[c]));
    case Crash(c) => LocatedControl(s.agents, s.pays, c, s.agents[c].(main := Gone));
  }

  lemma {:induction false} LocatedAfter(s: Sys, steps: seq<Step>)
    requires Inv(s) && Located(s.agents, s.pays) && Run(s, steps)
    ensures Located(After(s, steps).agents, After(s, steps).pays)
    decreases |steps|
  {
    hide Inv, Located, Enabled, Apply;
    if steps != [] {
      InvStep(s, steps[0]);
      LocatedStep(s, steps[0]);
      LocatedAfter(Apply(s, steps[0]), steps[1..]);
    }
  }

  lemma LocatedReachable(s: Sys)
    requires Reachable(s)
    ensures Located(s.agents, s.pays)
  {
    hide Inv;
    var steps :| Run(INIT, steps) && After(INIT, steps) == s;
    InvInit();
    LocatedAfter(INIT, steps);
  }

  // ---------------------------------------------------------------- one token for each client

  /** A place where a message can be. */
  datatype Spot =
    | InInbox(p: Connection, i: nat)
    | InUp(p: Connection, i: nat)
    | InDown(p: Connection, i: nat)

  /** The payment whose message is at a spot. */
  function TokenAt(s: Sys, at: Spot): Option<PayId> {
    if at.p !in s.agents then None
    else
      var a := s.agents[at.p];
      match at
      case InInbox(_, i) => if i < |a.inbox| then a.inbox[i].id else None
      case InUp(_, i) => if i < |a.up| then a.up[i].id else None
      case InDown(_, i) => if i < |a.down| then a.down[i].id else None
  }

  /** There is a message at a spot. */
  predicate Present(s: Sys, at: Spot) {
    && at.p in s.agents
    && match at
       case InInbox(p, i) => i < |s.agents[p].inbox|
       case InUp(p, i) => i < |s.agents[p].up|
       case InDown(p, i) => i < |s.agents[p].down|
  }

  /** The client whose main thread caused the message at a spot: the payer of a
      payment's message, and otherwise the client at the end of the channel. */
  function CauseOf(s: Sys, at: Spot): Option<Connection> {
    if !Present(s, at) then None
    else if TokenAt(s, at).Some? then Some(TokenAt(s, at).value.client)
    else Some(at.p)
  }

  /** The place that the history gives a message's payment. */
  predicate PlaceOf(s: Sys, at: Spot, id: PayId) {
    && id in s.pays && id.client in s.agents && s.agents[id.client].main == AwaitPay(id)
    && match at
       case InInbox(p, _) => s.pays[id].at == AtPeer(p)
       case InUp(p, _) => s.pays[id].at == Forwarded(p)
       case InDown(p, i) => s.pays[id].at.Settled? && p == id.client && i == 0
  }

  lemma TokenPlace(s: Sys, at: Spot)
    requires LinkInv(s.agents, s.sessions, s.pays) && TokenInv(s.agents, s.pays) && TokenAt(s, at).Some?
    ensures PlaceOf(s, at, TokenAt(s, at).value)
  {
    var id, a := TokenAt(s, at).value, s.agents[at.p];
    if at.InDown? {
      hide TokenInv, Sent;
      assert Linked(at.p, a, SessionOf(s.sessions, at.p), s.pays);
    } else {
      hide LinkInv;
      if at.InInbox? { assert TokenOk(s.agents, s.pays, a.inbox[at.i], AtPeer(at.p)); }
      else { assert TokenOk(s.agents, s.pays, a.up[at.i], Forwarded(at.p)); }
    }
  }

  lemma TokenUnique(s: Sys, at: Spot, at': Spot)
    requires TokenInv(s.agents, s.pays) && TokenAt(s, at).Some? && TokenAt(s, at) == TokenAt(s, at')
    requires PlaceOf(s, at, TokenAt(s, at).value) && PlaceOf(s, at', TokenAt(s, at).value)
    ensures at == at'
  {
  }

  /** Own counts the messages without a payment. */
  lemma {:induction false} OwnCounts(up: seq<Up>, i: nat, j: nat)
    requires i <= j < |up| && up[i].id.None? && up[j].id.None?
    ensures |Own(up)| >= if i == j then 1 else 2
  {
    if i == 0 {
      if j > 0 { OwnCounts(up[1..], j - 1, j - 1); }
    } else {
      OwnCounts(up[1..], i - 1, j - 1);
    }
  }

  /** The client's own channels hold at most one command or reply of its main
      thread: none at the menu, and under a payment at most the payment's reply. */
  lemma OwnChannels(s: Sys, c: Connection)
    requires LinkInv(s.agents, s.sessions, s.pays) && c in s.agents
    ensures var a := s.agents[c];
      && |Own(a.up)| + |a.down| <= 1
      && (a.main.Menu? ==> |Own(a.up)| + |a.down| == 0)
      && (a.main.AwaitPay? ==> Own(a.up) == [] && forall i | 0 <= i < |a.down| :: a.down[i].id.Some?)
      && (!a.main.AwaitPay? ==> forall i | 0 <= i < |a.down| :: a.down[i].id.None?)
  {
    hide LinkInv, Own, Linked;
    LinkedOf(s.agents, s.sessions, s.pays, c);
    LinkedChannels(c, s.agents[c], SessionOf(s.sessions, c), s.pays);
  }

  lemma LinkedChannels(c: Connection, a: Agent, k: Option<Session>, pays: Payments)
    requires Linked(c, a, k, pays)
    ensures |Own(a.up)| + |a.down| <= 1
    ensures a.main.Menu? ==> |Own(a.up)| + |a.down| == 0
    ensures a.main.AwaitPay? ==> Own(a.up) == [] && forall i | 0 <= i < |a.down| :: a.down[i].id.Some?
    ensures !a.main.AwaitPay? ==> forall i | 0 <= i < |a.down| :: a.down[i].id.None?
  {
    hide Own, Sent, Answers, NamesOk, Agrees, OwnOk;
  }

  /** Two messages caused by c's main thread that belong to no payment are one. */
  lemma OwnUnique(s: Sys, at: Spot, at': Spot)
    requires LinkInv(s.agents, s.sessions, s.pays) && TokenInv(s.agents, s.pays)
    requires Present(s, at) && Present(s, at') && at.p == at'.p && TokenAt(s, at).None? && TokenAt(s, at').None?
    ensures at == at' && !s.agents[at.p].main.AwaitPay? && !s.agents[at.p].main.Menu?
  {
    var a := s.agents[at.p];
    OwnChannels(s, at.p);
    hide LinkInv, Own;
    assert AllPayments(a.inbox);
    hide TokenInv;
    if at.InUp? { OwnCounts(a.up, at.i, at.i); }
    if at'.InUp? { OwnCounts(a.up, at'.i, at'.i); }
    if at.InUp? && at'.InUp? {
      OwnCounts(a.up, if at.i < at'.i then at.i else at'.i, if at.i < at'.i then at'.i else at.i);
    }
  }

  /** At most one token for each client: in every reachable state, whatever message
      a client's main thread has caused, be it a command, a payment handed to a
      peer, a payment forwarded by a peer or a reply, it is the only one anywhere,
      and the client is not at its menu.  If it belongs to a payment, the client
      is blocked waiting for exactly that payment's reply, is logged in under its
      name and is the connection that client_fds has for that name; if it does not,
      the client is not waiting for a payment. */
  lemma PaymentToken(s: Sys, at: Spot, at': Spot)
    requires Reachable(s) && CauseOf(s, at).Some?
    ensures var c := CauseOf(s, at).value;
      && c in s.agents && !s.agents[c].main.Menu?
      && (CauseOf(s, at') == Some(c) ==> at' == at)
      && (s.agents[c].main.AwaitPay? <==> TokenAt(s, at).Some?)
      && (TokenAt(s, at).Some? ==>
            && s.agents[c].main == AwaitPay(TokenAt(s, at).value) && TokenAt(s, at).value in s.pays
            && c in s.sessions && s.sessions[c].username == s.agents[c].name
            && FdOf(s.fds, s.agents[c].name) == Some(c))
  {
    hide Reachable, DataInv, LinkInv, TokenInv, LogInv, PayInv, FdOf, IndexInv;
    InvReachable(s);
    DataRows(s);
    var c := CauseOf(s, at).value;
    if TokenAt(s, at).Some? {
      TokenPlace(s, at);
      PayerIndexed(s, c);
    } else {
      OwnUnique(s, at, at);
    }
    if CauseOf(s, at') == Some(c) {
      if TokenAt(s, at').Some? {
        TokenPlace(s, at');
        TokenUnique(s, at, at');
      } else {
        OwnUnique(s, at', at');
        OwnUnique(s, at, at');
      }
    }
  }

  /** The same by counting: the client's own channels never hold more than one
      message of its main thread, and a client that waits for no payment has no
      payment message anywhere. */
  lemma OneOutstanding(s: Sys, c: Connection)
    requires Reachable(s) && c in s.agents
    ensures var a := s.agents[c];
      && |Own(a.up)| + |a.down| <= 1
      && (a.main.Menu? ==> |Own(a.up)| + |a.down| == 0)
      && (a.main.AwaitPay? ==> Own(a.up) == [])
      && (!a.main.AwaitPay? ==> forall at :: TokenAt(s, at).Some? ==> TokenAt(s, at).value.client != c)
  {
    hide Reachable, DataInv, LinkInv, TokenInv, LogInv, PayInv, Own;
    InvReachable(s);
    OwnChannels(s, c);
    forall at | TokenAt(s, at).Some? && TokenAt(s, at).value.client == c ensures s.agents[c].main.AwaitPay? {
      TokenPlace(s, at);
    }
  }

  lemma PayerIndexed(s: Sys, c: Connection)
    requires IndexInv(s.rows, s.fds, s.sessions) && LinkInv(s.agents, s.sessions, s.pays)
    requires c in s.agents && s.agents[c].main.AwaitPay?
    ensures c in s.sessions && s.sessions[c].username == s.agents[c].name
    ensures FdOf(s.fds, s.agents[c].name) == Some(c)
  {
    AwaitsOwn(s.agents, s.sessions, s.pays, c);
    hide LinkInv;
    assert (s.agents[c].name, c) in s.fds;
    FdOfEntry(s.fds, s.agents[c].name, c);
  }

  lemma MessageExists(s: Sys, c: Connection, id: PayId, at: Place)
    requires IsAt(s.agents, id, at) && c in s.agents
    requires at.Settled? ==> s.agents[c].down == [Down(TransferReply(at.status), Some(id))]
    ensures exists spot :: TokenAt(s, spot) == Some(id)
  {
    match at
    case AtPeer(p) =>
      var i: nat :| i < |s.agents[p].inbox| && s.agents[p].inbox[i].id == Some(id);
      assert TokenAt(s, InInbox(p, i)) == Some(id);
    case Forwarded(p) =>
      var i: nat :| i < |s.agents[p].up| && s.agents[p].up[i].id == Some(id);
      assert TokenAt(s, InUp(p, i)) == Some(id);
    case Settled(_) => assert TokenAt(s, InDown(c, 0)) == Some(id);
  }

  /** The step that moves an unanswered payment on, unless its carrier is gone. */
  predicate MovesOn(s: Sys, c: Connection, at: Place) {
    match at
    case AtPeer(p) => p in s.agents && (s.agents[p].main.Gone? || Enabled(s, Relay(p)))
    case Forwarded(p) => p in s.agents && (p !in s.sessions || Enabled(s, Serve(p)))
    case Settled(_) => Enabled(s, Read(c))
  }

  lemma CanMoveOn(s: Sys, c: Connection, id: PayId, at: Place)
    requires IsAt(s.agents, id, at) && c in s.agents && s.agents[c].main.AwaitPay?
    requires at.Settled? ==> s.agents[c].down != []
    ensures MovesOn(s, c, at)
  {
  }

  /** No token is lost: a waiting payer's message is somewhere, and unless the
      peer that holds it has gone, or the session of the peer that forwarded it
      has ended, a step that moves it on is enabled. */
  lemma PayerMovesOn(s: Sys, c: Connection)
    requires Reachable(s) && c in s.agents && s.agents[c].main.AwaitPay?
    ensures var id := s.agents[c].main.id;
      && id in s.pays && (exists spot :: TokenAt(s, spot) == Some(id))
      && MovesOn(s, c, s.pays[id].at)
  {
    InvReachable(s);
    LocatedReachable(s);
    hide Reachable, DataInv, LinkInv, TokenInv, LogInv, PayInv, TokenAt, MovesOn, IsAt;
    AwaitingPay(s.agents, s.sessions, s.pays, c);
    var id := s.agents[c].main.id;
    assert IsAt(s.agents, id, s.pays[id].at);
    hide Located;
    MessageExists(s, c, id, s.pays[id].at);
    CanMoveOn(s, c, id, s.pays[id].at);
  }

  lemma AwaitingPay(agents: Agents, sessions: Sessions, pays: Payments, c: Connection)
    requires LinkInv(agents, sessions, pays) && c in agents && agents[c].main.AwaitPay?
    ensures var id := agents[c].main.id;
      && id in pays
      && agents[c].down == if pays[id].at.Settled? then [Down(TransferReply(pays[id].at.status), Some(id))] else []
  {
  }

  // ---------------------------------------------------------------- replies match requests

  /** Whenever a client reads, the reply is the only one under way to it.  After a
      command it is what process_request answered to that command, for the client's
      own user, in the situation that the history recorded when it served it, and it
      is the right answer for the rows of that situation.  To List a logged-in client
      gets its own balance and everybody who was online, and another one is asked to
      log in.  A payment's reply says "transfer OK" if that payment was applied to
      the table exactly once, and anything else if it was never applied. */
  lemma RepliesMatch(s: Sys, c: Connection)
    requires Reachable(s) && Enabled(s, Read(c))
    ensures var a := s.agents[c]; var d := a.down[0];
      && a.down == [d]
      && (a.main.Await? ==>
            && NamesOk(a.main.cmd) && d.id.None? && Answers(d.reply, Sent(a.main.cmd))
            && c in s.served
            && var v := s.served[c];
               && v.req == Sent(a.main.cmd) && v.session.username == UserOf(a)
               && d.reply == React(v.rows, v.fds, c, v.session.ip, v.session.port, UserOf(a), v.req).reply
               && RightReply(v, d.reply)
               && (a.main.cmd.List? ==> if a.open then OwnListing(v.rows, a.name, d.reply) else d.reply == NotLoggedIn))
      && (a.main.AwaitPay? ==>
            && d.id == Some(a.main.id) && d.reply.TransferReply?
            && Times(s.log, a.main.id) == if ReplyText(d.reply) == "transfer OK\n" then 1 else 0)
  {
    hide Reachable, DataInv, LinkInv, TokenInv, PayInv, Sent, Answers, ReplyText, NamesOk, React, GetAll, Possible,
         OwnListing;
    InvReachable(s);
    var a := s.agents[c];
    if a.main.AwaitPay? {
      ReadSettled(s.agents, s.sessions, s.pays, c);
      OkText(a.down[0].reply.status);
    } else {
      AwaitedReply(s.agents, s.sessions, s.pays, c);
      TracedReachable(s);
      assert Traced(c, a, s.served);
      hide TracedInv;
      ReactIsRight(c, s.served[c]);
      if a.main.cmd.List? { SentMeans(a.main.cmd); }
    }
  }

  lemma AwaitedReply(agents: Agents, sessions: Sessions, pays: Payments, c: Connection)
    requires LinkInv(agents, sessions, pays) && c in agents && agents[c].main.Await? && agents[c].down != []
    ensures var a := agents[c];
      && NamesOk(a.main.cmd) && |a.down| == 1 && a.down[0].id.None? && Answers(a.down[0].reply, Sent(a.main.cmd))
      && (a.main.cmd.List? && a.open ==> a.name != "")
  {
    LinkedOf(agents, sessions, pays, c);
    var cmd := agents[c].main.cmd;
    if cmd.List? { SentMeans(cmd); }
    hide LinkInv, Sent, Own, OwnOk, NamesOk;
  }

  /** Only an accepted transfer is reported as "transfer OK". */
  lemma OkText(status: int)
    ensures ReplyText(TransferReply(status)) == "transfer OK\n" <==> status == TRANSFER_OK
  {
  }

  /** What a payer reads tells how its payment was decided: it was accepted iff
      payer and receiver differ, the amount was positive, the receiver was online and
      the payer could afford it, on the table that the payment met. */
  lemma VerdictIsRight(s: Sys, id: PayId)
    requires Reachable(s) && id in s.answers
    ensures id in s.pays && s.pays[id].req.AskTransfer? && id in s.judged
    ensures var req, rows, text := s.pays[id].req, s.judged[id], s.answers[id];
      var fair := req.snd != req.rcv && req.amount > 0.0 && IsOnline(rows, req.rcv);
      && (text == "transfer OK\n" <==> fair && CanAfford(rows, req.snd, req.amount))
      && (text == "transfer FAIL due to bankruptcy\n" <==> fair && !CanAfford(rows, req.snd, req.amount))
      && (text == "transfer FAIL; can't transfer to yourself\n" <==> req.snd == req.rcv)
      && (text == "transfer FAIL\n" <==> req.snd != req.rcv && !fair)
  {
    hide Reachable, DataInv, LinkInv, TokenInv, LogInv, ReplyText, IsOnline, CanAfford, UniqueNames, Transfer;
    InvReachable(s);
    JudgedReachable(s);
    assert Judged(s.pays[id], id, s.judged);
    hide JudgedInv, PayInv;
    var req := s.pays[id].req;
    TransferDecision(s.judged[id], req.snd, req.rcv, req.amount);
    Verdicts(s.pays[id].at.status);
  }

  /** The texts of the verdicts differ. */
  lemma Verdicts(status: int)
    ensures var text := ReplyText(TransferReply(status));
      && (text == "transfer OK\n" <==> status == TRANSFER_OK)
      && (text == "transfer FAIL due to bankruptcy\n" <==> status == TRANSFER_SENDER_BANKRUPT)
      && (text == "transfer FAIL\n" <==> status == TRANSFER_FAIL)
      && (text == "transfer FAIL; can't transfer to yourself\n" <==>
            status != TRANSFER_OK && status != TRANSFER_SENDER_BANKRUPT && status != TRANSFER_FAIL)
  {
    var ok, broke, fail, self :=
      "transfer OK\n", "transfer FAIL due to bankruptcy\n", "transfer FAIL\n", "transfer FAIL; can't transfer to yourself\n";
    assert ok[9] == 'O' && broke[9] == 'F' && fail[9] == 'F' && self[9] == 'F';
    assert broke[13] == ' ' && fail[13] == '\n' && self[13] == ';';
  }

  /** Settlement agreement.  In every reachable state:
      a payment that its payer has seen confirmed was applied exactly once, and one
      that was answered otherwise never was; a payment without an answer still has
      its payer waiting; each entry of the log is a payment as its payer sent it;
      and each balance is 10000 plus what was received minus what was paid. */
  lemma SettlementAgreement(s: Sys)
    requires Reachable(s)
    ensures forall id | id in s.answers ::
      id in s.pays && Times(s.log, id) == if s.answers[id] == "transfer OK\n" then 1 else 0
    ensures forall id | id in s.pays && id !in s.answers ::
      id.client in s.agents && s.agents[id.client].main == AwaitPay(id)
    ensures forall i | 0 <= i < |s.log| :: Recorded(s.pays, s.log[i])
    ensures forall c | c in s.rows ::
      && c.balance == INITIAL_BALANCE + LedgerRuns.Received(Entries(s.log), c.username)
                                      - LedgerRuns.Paid(Entries(s.log), c.username)
      && c.balance >= 0
  {
    InvReachable(s);
    hide Reachable, LinkInv, TokenInv, IndexInv, LedgerRuns.Received, LedgerRuns.Paid, Entries, Times;
    forall id | id in s.answers
      ensures id in s.pays && Times(s.log, id) == if s.answers[id] == "transfer OK\n" then 1 else 0
    {
      OkText(s.pays[id].at.status);
      hide ReplyText;
    }
    forall c | c in s.rows ensures LedgerRuns.Explained(LedgerRuns.Book(s.rows, Entries(s.log)), c) {
      var k :| 0 <= k < |s.rows| && s.rows[k] == c;
      assert LedgerRuns.Explained(LedgerRuns.Book(s.rows, Entries(s.log)), s.rows[k]);
    }
  }

  /** The client pays whole amounts only, so that money is conserved exactly: the
      balances always add up to 10000 for each user. */
  lemma MoneyConserved(s: Sys)
    requires Reachable(s)
    ensures LedgerRuns.Total(s.rows) == INITIAL_BALANCE * |s.rows|
  {
    InvReachable(s);
    hide Reachable, LinkInv, TokenInv, IndexInv, LedgerRuns.Fractional, LedgerRuns.Whole, Times, ReplyText,
         LedgerRuns.Explained, ValidRows;
    LedgerRuns.WholeLog(Entries(s.log));
    forall i | 0 <= i < |Entries(s.log)| ensures LedgerRuns.Whole(Entries(s.log)[i].pay) {
      assert Recorded(s.pays, s.log[i]);
    }
  }

  // ---------------------------------------------------------------- sessions

  /** Online rows, logged-in sessions and client_fds correspond one to one in
      every reachable state, and a session that ends logs out exactly its own user,
      or nobody if it never logged in. */
  lemma SessionsAgree(s: Sys, c: Connection)
    requires Reachable(s)
    ensures IndexInv(s.rows, s.fds, s.sessions)
    ensures c in s.sessions ==>
      var k := s.sessions[c];
      var r := Logout(s.rows, k.ip, k.port);
      if k.username == "" then r == Outcome(s.rows, LOGOUT_FAIL)
      else
        && OnlineRow(s.rows, k.username).Some?
        && r == Outcome(Update(s.rows, LoggedOut(OnlineRow(s.rows, k.username).value)), LOGOUT_SUCCESS)
  {
    InvReachable(s);
    hide Reachable, DataInv, LinkInv, TokenInv, IndexInv, LogInv, PayInv, Logout, OnlineRow;
    DataRows(s);
    if c in s.sessions { LogoutIsExact(s.rows, s.fds, s.sessions, c); }
  }

  /** Every command that a session reads meets what process_request takes for
      granted: its own user is registered, and so is a transfer's sender, who has
      an entry in client_fds. */
  lemma ProcessIsSafe(s: Sys, c: Connection)
    requires Reachable(s) && Enabled(s, Serve(c))
    ensures var k, req := s.sessions[c], s.agents[c].up[0].req;
      && ValidRows(s.rows)
      && (k.username != "" ==> Row(s.rows, k.username).Some?)
      && (req.AskTransfer? ==> Row(s.rows, req.snd).Some? && FdOf(s.fds, req.snd).Some?)
  {
    hide Reachable, DataInv, LinkInv, TokenInv, IndexInv, LogInv, PayInv, FdOf, GetAll, Row, ValidRows;
    InvReachable(s);
    DataRows(s);
    RowsAtAddress(s.rows, s.fds, s.sessions, c);
    if s.agents[c].up[0].id.Some? { PayerIsKnown(s, c); } else { OwnIsNoTransfer(s.agents, s.sessions, s.pays, c); }
  }
}
