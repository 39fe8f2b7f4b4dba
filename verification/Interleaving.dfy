/** user_transaction of src/Database.cpp without the assumption that database
    calls are serialised: each transfer is a read of the sender's row, a read of
    the receiver's row, a write of the sender's row and a write of the receiver's
    row, and the steps of any number of transfers interleave.  Transfers between
    disjoint pairs of accounts are serialisable. */
module Interleaving {
  import opened Wrappers
  import opened Ledger
  import opened LedgerRuns

  datatype Tx = Tx(snd: string, rcv: string, pay: real)

  /** Where a transfer is, with the row copies that it holds. */
  datatype Phase =
    | Start
    | GotSender(found: Option<Client>)
    | Funded(sender: Client, receiver: Client)
    | PaidOut(receiver: Client)
    | Done(status: int)

  datatype Table = Table(rows: seq<Client>, phases: seq<Phase>)

  predicate CanStep(txs: seq<Tx>, s: Table, i: nat) {
    i < |txs| == |s.phases| && !s.phases[i].Done?
  }

  /** The check between the reads and the writes; it touches no shared state. */
  function Decide(tx: Tx, sender: Option<Client>, receiver: Option<Client>): Phase {
    if sender.None? || receiver.None? then Done(TRANSFER_FAIL)
    else if sender.value.balance as real - tx.pay < 0.0 then Done(TRANSFER_SENDER_BANKRUPT)
    else Funded(sender.value, receiver.value)
  }

  /** One atomic access of transfer i. */
  function StepOf(txs: seq<Tx>, s: Table, i: nat): Table
    requires CanStep(txs, s, i)
  {
    var tx := txs[i];
    match s.phases[i]
    case Start =>
      var next :=
        if tx.snd == tx.rcv then Done(TRANSFER_SELF_FAIL)
        else if tx.pay <= 0.0 then Done(TRANSFER_FAIL)
        else GotSender(OnlineRow(s.rows, tx.snd));
      s.(phases := s.phases[i := next])
    case GotSender(found) =>
      s.(phases := s.phases[i := Decide(tx, found, OnlineRow(s.rows, tx.rcv))])
    case Funded(sender, receiver) =>
      Table(Update(s.rows, sender.(balance := Trunc(sender.balance as real - tx.pay))),
            s.phases[i := PaidOut(receiver)])
    case PaidOut(receiver) =>
      Table(Update(s.rows, receiver.(balance := Trunc(receiver.balance as real + tx.pay))),
            s.phases[i := Done(TRANSFER_OK)])
  }

  ghost predicate Legal(txs: seq<Tx>, s: Table, schedule: seq<nat>)
    decreases |schedule|
  {
    schedule == [] ||
    (CanStep(txs, s, schedule[0]) && Legal(txs, StepOf(txs, s, schedule[0]), schedule[1..]))
  }

  ghost function Result(txs: seq<Tx>, s: Table, schedule: seq<nat>): Table
    requires Legal(txs, s, schedule)
    decreases |schedule|
  {
    if schedule == [] then s else Result(txs, StepOf(txs, s, schedule[0]), schedule[1..])
  }

  function Fresh(rows: seq<Client>, txs: seq<Tx>): Table {
    Table(rows, seq(|txs|, i => Start))
  }

  ghost predicate AllDone(s: Table) {
    forall i | 0 <= i < |s.phases| :: s.phases[i].Done?
  }

  predicate Touches(tx: Tx, name: string) {
    tx.snd == name || tx.rcv == name
  }

  ghost predicate Disjoint(txs: seq<Tx>) {
    forall i, j, name | 0 <= i < |txs| && 0 <= j < |txs| && Touches(txs[i], name) && Touches(txs[j], name) :: i == j
  }

  // ---------------------------------------------------------------- invariant

  function StatusOf(r0: seq<Client>, tx: Tx): int {
    TransferStatus(r0, tx.snd, tx.rcv, tx.pay)
  }

  /** What a transfer holds agrees with the table that all of them started from. */
  ghost predicate LocalOk(r0: seq<Client>, tx: Tx, p: Phase) {
    match p
    case Start => true
    case GotSender(found) => tx.snd != tx.rcv && tx.pay > 0.0 && found == OnlineRow(r0, tx.snd)
    case Funded(sender, receiver) =>
      StatusOf(r0, tx) == TRANSFER_OK && Some(sender) == OnlineRow(r0, tx.snd) && Some(receiver) == OnlineRow(r0, tx.rcv)
    case PaidOut(receiver) => StatusOf(r0, tx) == TRANSFER_OK && Some(receiver) == OnlineRow(r0, tx.rcv)
    case Done(status) => status == StatusOf(r0, tx)
  }

  /** The row of a user whom tx touches, given how far tx has come. */
  function Expected(c: Client, tx: Tx, p: Phase): Client {
    if c.username == tx.snd && (p.PaidOut? || p == Done(TRANSFER_OK)) then Debited(c, tx.pay)
    else if c.username == tx.rcv && p == Done(TRANSFER_OK) then Credited(c, tx.pay)
    else c
  }

  ghost predicate RowOk(r0: seq<Client>, txs: seq<Tx>, s: Table, k: nat)
    requires k < |r0| == |s.rows| && |txs| == |s.phases|
  {
    && s.rows[k].username == r0[k].username
    && (forall i | 0 <= i < |txs| && Touches(txs[i], r0[k].username) :: s.rows[k] == Expected(r0[k], txs[i], s.phases[i]))
    && ((forall i | 0 <= i < |txs| :: !Touches(txs[i], r0[k].username)) ==> s.rows[k] == r0[k])
  }

  ghost predicate TableInv(r0: seq<Client>, txs: seq<Tx>, s: Table) {
    && ValidRows(r0) && Disjoint(txs)
    && |s.rows| == |r0| && |s.phases| == |txs|
    && (forall i | 0 <= i < |txs| :: LocalOk(r0, txs[i], s.phases[i]))
    && (forall k | 0 <= k < |r0| :: RowOk(r0, txs, s, k))
  }

  lemma FreshInv(r0: seq<Client>, txs: seq<Tx>)
    requires ValidRows(r0) && Disjoint(txs)
    ensures TableInv(r0, txs, Fresh(r0, txs))
  {
  }

  /** A read by transfer i sees the row as it was at the start. */
  lemma ReadsOriginal(r0: seq<Client>, txs: seq<Tx>, s: Table, i: nat, name: string)
    requires TableInv(r0, txs, s) && i < |txs| && Touches(txs[i], name)
    requires s.phases[i].Start? || s.phases[i].GotSender?
    ensures OnlineRow(s.rows, name) == OnlineRow(r0, name)
  {
    assert UniqueNames(s.rows) by {
      forall a, b | 0 <= a < b < |s.rows| ensures s.rows[a].username != s.rows[b].username {
        assert RowOk(r0, txs, s, a) && RowOk(r0, txs, s, b);
      }
    }
    if k :| 0 <= k < |r0| && r0[k].username == name {
      assert RowOk(r0, txs, s, k);
      assert s.rows[k] == r0[k];
      RowAt(r0, k);
      RowAt(s.rows, k);
    } else {
      forall k | 0 <= k < |s.rows| ensures s.rows[k].username != name {
        assert RowOk(r0, txs, s, k);
      }
    }
  }

  /** Transfer i has read, and written nothing. */
  lemma ReadInv(r0: seq<Client>, txs: seq<Tx>, s: Table, i: nat)
    requires TableInv(r0, txs, s) && CanStep(txs, s, i) && (s.phases[i].Start? || s.phases[i].GotSender?)
    ensures TableInv(r0, txs, StepOf(txs, s, i))
  {
    var tx := txs[i];
    ReadsOriginal(r0, txs, s, i, tx.snd);
    ReadsOriginal(r0, txs, s, i, tx.rcv);
    var s' := StepOf(txs, s, i);
    assert LocalOk(r0, tx, s'.phases[i]) by {
      assert LocalOk(r0, tx, s.phases[i]);
    }
    assert s'.rows == s.rows && s'.phases == s.phases[i := s'.phases[i]];
    assert forall c :: Expected(c, tx, s'.phases[i]) == Expected(c, tx, s.phases[i]) by {
      assert !s'.phases[i].PaidOut? && s'.phases[i] != Done(TRANSFER_OK);
    }
    hide OnlineRow, StatusOf, StepOf, Expected, LocalOk;
    forall k | 0 <= k < |r0| ensures RowOk(r0, txs, s', k) {
      assert RowOk(r0, txs, s, k);
    }
  }

  /** Transfer i writes one row of its own pair; no other transfer's row changes. */
  lemma WriteInv(r0: seq<Client>, txs: seq<Tx>, s: Table, i: nat, c: Client, p: Phase)
    requires TableInv(r0, txs, s) && CanStep(txs, s, i)
    requires Touches(txs[i], c.username) && LocalOk(r0, txs[i], p)
    requires forall k | 0 <= k < |r0| && Touches(txs[i], r0[k].username) ::
               Expected(r0[k], txs[i], p) == if r0[k].username == c.username then c else Expected(r0[k], txs[i], s.phases[i])
    ensures TableInv(r0, txs, Table(Update(s.rows, c), s.phases[i := p]))
  {
    var s' := Table(Update(s.rows, c), s.phases[i := p]);
    hide LocalOk, Expected;
    forall k | 0 <= k < |r0| ensures RowOk(r0, txs, s', k) {
      assert RowOk(r0, txs, s, k);
      forall j | 0 <= j < |txs| && Touches(txs[j], r0[k].username)
        ensures s'.rows[k] == Expected(r0[k], txs[j], s'.phases[j])
      {
        assert j != i ==> !Touches(txs[i], r0[k].username);
      }
    }
  }

  lemma OriginalRow(r0: seq<Client>, tx: Tx, k: nat)
    requires ValidRows(r0) && StatusOf(r0, tx) == TRANSFER_OK && k < |r0|
    ensures r0[k].username == tx.snd ==> OnlineRow(r0, tx.snd) == Some(r0[k])
    ensures r0[k].username == tx.rcv ==> OnlineRow(r0, tx.rcv) == Some(r0[k])
  {
  }

  lemma PayOutInv(r0: seq<Client>, txs: seq<Tx>, s: Table, i: nat)
    requires TableInv(r0, txs, s) && CanStep(txs, s, i) && s.phases[i].Funded?
    ensures TableInv(r0, txs, StepOf(txs, s, i))
  {
    var tx, sender, receiver := txs[i], s.phases[i].sender, s.phases[i].receiver;
    assert LocalOk(r0, tx, s.phases[i]);
    TruncateBalances(sender.balance, receiver.balance, tx.pay);
    forall k | 0 <= k < |r0| ensures r0[k].username == tx.snd ==> r0[k] == sender {
      OriginalRow(r0, tx, k);
    }
    hide TableInv, ValidRows, Trunc, Ceil, OnlineRow, StatusOf;
    WriteInv(r0, txs, s, i, Debited(sender, tx.pay), PaidOut(receiver));
  }

  lemma PayInInv(r0: seq<Client>, txs: seq<Tx>, s: Table, i: nat)
    requires TableInv(r0, txs, s) && CanStep(txs, s, i) && s.phases[i].PaidOut?
    ensures TableInv(r0, txs, StepOf(txs, s, i))
  {
    var tx, receiver := txs[i], s.phases[i].receiver;
    assert LocalOk(r0, tx, s.phases[i]);
    TruncateBalances(OnlineRow(r0, tx.snd).value.balance, receiver.balance, tx.pay);
    forall k | 0 <= k < |r0| ensures r0[k].username == tx.rcv ==> r0[k] == receiver {
      OriginalRow(r0, tx, k);
    }
    assert tx.snd != tx.rcv;
    hide TableInv, ValidRows, Trunc, Ceil, OnlineRow, StatusOf;
    WriteInv(r0, txs, s, i, Credited(receiver, tx.pay), Done(TRANSFER_OK));
  }

  lemma StepInv(r0: seq<Client>, txs: seq<Tx>, s: Table, i: nat)
    requires TableInv(r0, txs, s) && CanStep(txs, s, i)
    ensures TableInv(r0, txs, StepOf(txs, s, i))
  {
    hide TableInv, StepOf;
    match s.phases[i]
    case Funded(_, _) => PayOutInv(r0, txs, s, i);
    case PaidOut(_) => PayInInv(r0, txs, s, i);
    case _ => ReadInv(r0, txs, s, i);
  }

  lemma {:induction false} ResultInv(r0: seq<Client>, txs: seq<Tx>, s: Table, schedule: seq<nat>)
    requires TableInv(r0, txs, s) && Legal(txs, s, schedule)
    ensures TableInv(r0, txs, Result(txs, s, schedule))
    decreases |schedule|
  {
    hide TableInv, StepOf, CanStep;
    if schedule != [] {
      StepInv(r0, txs, s, schedule[0]);
      ResultInv(r0, txs, StepOf(txs, s, schedule[0]), schedule[1..]);
    }
  }

  // ---------------------------------------------------------------- serialisability

  /** Once all transfers are done, the table depends on the start alone. */
  lemma DoneDetermines(r0: seq<Client>, txs: seq<Tx>, s: Table, t: Table)
    requires TableInv(r0, txs, s) && AllDone(s) && TableInv(r0, txs, t) && AllDone(t)
    ensures s == t
  {
    forall i | 0 <= i < |txs| ensures s.phases[i] == t.phases[i] {
      assert LocalOk(r0, txs[i], s.phases[i]) && LocalOk(r0, txs[i], t.phases[i]);
    }
    forall k | 0 <= k < |r0| ensures s.rows[k] == t.rows[k] {
      assert RowOk(r0, txs, s, k) && RowOk(r0, txs, t, k);
    }
    assert s.phases == t.phases && s.rows == t.rows;
  }

  /** Transfer i as the atomic call of Ledger. */
  function CallOne(txs: seq<Tx>, s: Table, i: nat): Table
    requires i < |txs| == |s.phases|
  {
    var tx := txs[i];
    Table(Transfer(s.rows, tx.snd, tx.rcv, tx.pay).rows,
          s.phases[i := Done(TransferStatus(s.rows, tx.snd, tx.rcv, tx.pay))])
  }

  /** The transfers one after the other, each as the atomic call of Ledger. */
  ghost function Serial(txs: seq<Tx>, s: Table, order: seq<nat>): Table
    requires |txs| == |s.phases| && forall n | 0 <= n < |order| :: order[n] < |txs|
    decreases |order|
  {
    if order == [] then s else Serial(txs, CallOne(txs, s, order[0]), order[1..])
  }

  /** The order in which the rest of a serial run takes the transfers. */
  ghost predicate Pending(s: Table, txs: seq<Tx>, order: seq<nat>) {
    && |s.phases| == |txs|
    && (forall n | 0 <= n < |order| :: order[n] < |txs| && s.phases[order[n]].Start?)
    && (forall m, n | 0 <= m < n < |order| :: order[m] != order[n])
    && (forall i | 0 <= i < |txs| :: s.phases[i].Done? || i in order)
  }

  /** A transfer whose steps are not interrupted is the atomic call. */
  lemma AloneIsAtomic(txs: seq<Tx>, s: Table, i: nat) returns (alone: seq<nat>)
    requires ValidRows(s.rows) && i < |txs| == |s.phases| && s.phases[i].Start?
    ensures Legal(txs, s, alone) && Result(txs, s, alone) == CallOne(txs, s, i)
  {
    var tx := txs[i];
    if tx.snd == tx.rcv || tx.pay <= 0.0 {
      alone := [i];
      assert [i][1..] == [] && Legal(txs, StepOf(txs, s, i), []);
    } else if StatusOf(s.rows, tx) != TRANSFER_OK {
      alone := [i, i];
      AloneRefused(txs, s, i);
    } else {
      alone := [i, i] + [i, i];
      AloneAccepted(txs, s, i);
    }
  }

  lemma {:induction false} AloneRefused(txs: seq<Tx>, s: Table, i: nat)
    requires i < |txs| == |s.phases| && s.phases[i].Start? && txs[i].snd != txs[i].rcv && txs[i].pay > 0.0
    requires StatusOf(s.rows, txs[i]) != TRANSFER_OK
    ensures Legal(txs, s, [i, i])
    ensures Result(txs, s, [i, i]) == Table(s.rows, s.phases[i := Done(StatusOf(s.rows, txs[i]))])
  {
    hide OnlineRow;
    var s1 := StepOf(txs, s, i);
    var s2 := StepOf(txs, s1, i);
    assert s2.phases == s.phases[i := Done(StatusOf(s.rows, txs[i]))];
    TwoSteps(txs, s, i);
  }

  /** Both reads, uninterrupted, of a transfer that will be accepted. */
  lemma {:induction false} AloneReads(txs: seq<Tx>, s: Table, i: nat)
    requires i < |txs| == |s.phases| && s.phases[i].Start?
    requires TransferStatus(s.rows, txs[i].snd, txs[i].rcv, txs[i].pay) == TRANSFER_OK
    ensures OnlineRow(s.rows, txs[i].snd).Some? && OnlineRow(s.rows, txs[i].rcv).Some?
    ensures Legal(txs, s, [i, i])
    ensures Result(txs, s, [i, i]) ==
      s.(phases := s.phases[i := Funded(OnlineRow(s.rows, txs[i].snd).value, OnlineRow(s.rows, txs[i].rcv).value)])
  {
    hide OnlineRow;
    var s2 := StepOf(txs, StepOf(txs, s, i), i);
    assert s2.phases == s.phases[i := s2.phases[i]];
    TwoSteps(txs, s, i);
  }

  /** Both writes, uninterrupted. */
  lemma {:induction false} AloneWrites(txs: seq<Tx>, s: Table, i: nat, sender: Client, receiver: Client)
    requires i < |txs| == |s.phases| && s.phases[i] == Funded(sender, receiver)
    ensures Legal(txs, s, [i, i])
    ensures Result(txs, s, [i, i]) ==
      Table(Update(Update(s.rows, sender.(balance := Trunc(sender.balance as real - txs[i].pay))),
                   receiver.(balance := Trunc(receiver.balance as real + txs[i].pay))),
            s.phases[i := Done(TRANSFER_OK)])
  {
    hide Update, Trunc;
    var s2 := StepOf(txs, StepOf(txs, s, i), i);
    assert s2.phases == s.phases[i := Done(TRANSFER_OK)];
    TwoSteps(txs, s, i);
  }

  lemma {:induction false} AloneAccepted(txs: seq<Tx>, s: Table, i: nat)
    requires ValidRows(s.rows) && i < |txs| == |s.phases| && s.phases[i].Start?
    requires TransferStatus(s.rows, txs[i].snd, txs[i].rcv, txs[i].pay) == TRANSFER_OK
    ensures var tx := txs[i];
      && Legal(txs, s, [i, i] + [i, i])
      && Result(txs, s, [i, i] + [i, i]) ==
           Table(Transfer(s.rows, tx.snd, tx.rcv, tx.pay).rows, s.phases[i := Done(TRANSFER_OK)])
  {
    hide StepOf, CanStep, OnlineRow, Update, Trunc, Transfer, ValidRows, TransferStatus;
    var tx := txs[i];
    AloneReads(txs, s, i);
    TransferTruncates(s.rows, tx.snd, tx.rcv, tx.pay);
    var s2 := Result(txs, s, [i, i]);
    AloneWrites(txs, s2, i, OnlineRow(s.rows, tx.snd).value, OnlineRow(s.rows, tx.rcv).value);
    assert s2.phases[i := Done(TRANSFER_OK)] == s.phases[i := Done(TRANSFER_OK)];
    Append(txs, s, [i, i], [i, i]);
  }

  lemma {:induction false} TwoSteps(txs: seq<Tx>, s: Table, i: nat)
    requires CanStep(txs, s, i) && CanStep(txs, StepOf(txs, s, i), i)
    ensures Legal(txs, s, [i, i]) && Result(txs, s, [i, i]) == StepOf(txs, StepOf(txs, s, i), i)
  {
    hide StepOf;
    var s1 := StepOf(txs, s, i);
    assert [i, i][1..] == [i] && [i][1..] == [];
    assert Legal(txs, s1, [i]) && Result(txs, s1, [i]) == StepOf(txs, s1, i);
  }

  lemma {:induction false} Append(txs: seq<Tx>, s: Table, a: seq<nat>, b: seq<nat>)
    requires Legal(txs, s, a) && Legal(txs, Result(txs, s, a), b)
    ensures Legal(txs, s, a + b) && Result(txs, s, a + b) == Result(txs, Result(txs, s, a), b)
    decreases |a|
  {
    hide StepOf, CanStep;
    if a == [] {
      assert a + b == b;
    } else {
      assert (a + b)[1..] == a[1..] + b;
      Append(txs, StepOf(txs, s, a[0]), a[1..], b);
    }
  }

  /** A serial run is one of the schedules. */
  lemma {:induction false} SerialIsSchedule(txs: seq<Tx>, s: Table, order: seq<nat>) returns (schedule: seq<nat>)
    requires ValidRows(s.rows) && Pending(s, txs, order)
    ensures Legal(txs, s, schedule)
    ensures AllDone(Result(txs, s, schedule))
    ensures Result(txs, s, schedule) == Serial(txs, s, order)
    decreases |order|
  {
    hide Legal, Result, ValidRows, Transfer, TransferStatus;
    if order == [] {
      assert Legal(txs, s, []) && Result(txs, s, []) == s by { NoSteps(txs, s); }
      return [];
    }
    var i := order[0];
    var alone := AloneIsAtomic(txs, s, i);
    var s1 := Result(txs, s, alone);
    TransferValid(s.rows, txs[i].snd, txs[i].rcv, txs[i].pay);
    assert Pending(s1, txs, order[1..]);
    var rest := SerialIsSchedule(txs, s1, order[1..]);
    Append(txs, s, alone, rest);
    return alone + rest;
  }

  lemma {:induction false} NoSteps(txs: seq<Tx>, s: Table)
    ensures Legal(txs, s, []) && Result(txs, s, []) == s
  {
  }

  /** Serialisability: whatever the interleaving of any number of transfers with
      pairwise disjoint accounts, when all are done the table and the statuses are
      those of the serial calls in any order, and each status is the one that the
      call would have returned at the start. */
  lemma {:induction false} DisjointTransfersSerialise(r0: seq<Client>, txs: seq<Tx>, schedule: seq<nat>,
      order: seq<nat>)
    requires ValidRows(r0) && Disjoint(txs)
    requires Legal(txs, Fresh(r0, txs), schedule) && AllDone(Result(txs, Fresh(r0, txs), schedule))
    requires Pending(Fresh(r0, txs), txs, order)
    ensures var s := Result(txs, Fresh(r0, txs), schedule);
      && s == Serial(txs, Fresh(r0, txs), order)
      && |s.phases| == |txs|
      && forall i | 0 <= i < |txs| :: s.phases[i] == Done(TransferStatus(r0, txs[i].snd, txs[i].rcv, txs[i].pay))
  {
    var start := Fresh(r0, txs);
    FreshInv(r0, txs);
    ResultInv(r0, txs, start, schedule);
    var serial := SerialIsSchedule(txs, start, order);
    ResultInv(r0, txs, start, serial);
    var s := Result(txs, start, schedule);
    DoneDetermines(r0, txs, s, Result(txs, start, serial));
    forall i | 0 <= i < |txs| ensures s.phases[i] == Done(StatusOf(r0, txs[i])) {
      assert LocalOk(r0, txs[i], s.phases[i]);
    }
  }

  // ---------------------------------------------------------------- money in flight

  /** Money debited and not credited yet, or lost to rounding, by one transfer. */
  ghost function Outstanding(tx: Tx, p: Phase): int {
    if p.PaidOut? then Ceil(tx.pay)
    else if p == Done(TRANSFER_OK) && !Whole(tx.pay) then 1
    else 0
  }

  ghost function OutstandingSum(txs: seq<Tx>, phases: seq<Phase>): int
    requires |txs| == |phases|
  {
    if txs == [] then 0
    else
      var n := |txs| - 1;
      OutstandingSum(txs[..n], phases[..n]) + Outstanding(txs[n], phases[n])
  }

  lemma {:induction false} OutstandingUpdate(txs: seq<Tx>, phases: seq<Phase>, i: nat, p: Phase)
    requires i < |txs| == |phases|
    ensures OutstandingSum(txs, phases[i := p]) == OutstandingSum(txs, phases) - Outstanding(txs[i], phases[i]) + Outstanding(txs[i], p)
  {
    var n := |txs| - 1;
    if i == n {
      assert phases[i := p][..n] == phases[..n];
    } else {
      assert phases[i := p][..n] == phases[..n][i := p];
      OutstandingUpdate(txs[..n], phases[..n], i, p);
    }
  }

  /** The row that transfer i is about to write. */
  lemma WritesOwnRow(r0: seq<Client>, txs: seq<Tx>, s: Table, i: nat)
    requires TableInv(r0, txs, s) && i < |txs|
    ensures UniqueNames(s.rows)
    ensures s.phases[i].Funded? ==> s.phases[i].sender in s.rows
    ensures s.phases[i].PaidOut? ==> s.phases[i].receiver in s.rows
  {
    forall a, b | 0 <= a < b < |s.rows| ensures s.rows[a].username != s.rows[b].username {
      assert RowOk(r0, txs, s, a) && RowOk(r0, txs, s, b);
    }
    assert LocalOk(r0, txs[i], s.phases[i]);
    if s.phases[i].Funded? {
      var k :| 0 <= k < |r0| && r0[k] == s.phases[i].sender;
      assert RowOk(r0, txs, s, k);
      assert s.rows[k] == r0[k];
    } else if s.phases[i].PaidOut? {
      var k :| 0 <= k < |r0| && r0[k] == s.phases[i].receiver;
      assert RowOk(r0, txs, s, k);
      assert s.rows[k] == r0[k];
    }
  }

  lemma {:induction false} MoneyStep(r0: seq<Client>, txs: seq<Tx>, s: Table, i: nat)
    requires TableInv(r0, txs, s) && CanStep(txs, s, i)
    ensures var s' := StepOf(txs, s, i);
      |s'.phases| == |txs| &&
      Total(s'.rows) + OutstandingSum(txs, s'.phases) == Total(s.rows) + OutstandingSum(txs, s.phases)
  {
    var p, s' := s.phases[i], StepOf(txs, s, i);
    OutstandingUpdate(txs, s.phases, i, s'.phases[i]);
    RowsTotal(r0, txs, s, i);
    assert LocalOk(r0, txs[i], p);
    hide TableInv, OnlineRow, Update, Total, OutstandingSum, Trunc, Ceil;
    assert s'.phases == s.phases[i := s'.phases[i]];
  }

  /** What a step of transfer i does to the money in the table. */
  lemma RowsTotal(r0: seq<Client>, txs: seq<Tx>, s: Table, i: nat)
    requires TableInv(r0, txs, s) && CanStep(txs, s, i)
    ensures var s' := StepOf(txs, s, i);
      i < |s'.phases| && Total(s'.rows) + Outstanding(txs[i], s'.phases[i]) == Total(s.rows) + Outstanding(txs[i], s.phases[i])
  {
    hide TableInv, Total, Ceil, Trunc, OnlineRow, Update, Whole;
    if s.phases[i].Funded? {
      DebitTotal(r0, txs, s, i);
    } else if s.phases[i].PaidOut? {
      CreditTotal(r0, txs, s, i);
    }
  }

  lemma DebitTotal(r0: seq<Client>, txs: seq<Tx>, s: Table, i: nat)
    requires TableInv(r0, txs, s) && CanStep(txs, s, i) && s.phases[i].Funded?
    ensures Total(StepOf(txs, s, i).rows) == Total(s.rows) - Ceil(txs[i].pay)
  {
    var tx, p := txs[i], s.phases[i];
    WritesOwnRow(r0, txs, s, i);
    assert LocalOk(r0, tx, p);
    TruncateBalances(p.sender.balance, p.receiver.balance, tx.pay);
    hide TableInv, Trunc, Ceil, OnlineRow, StatusOf, ValidRows, LocalOk, Update, Total, UniqueNames;
    TotalUpdate(s.rows, Debited(p.sender, tx.pay), p.sender);
  }

  lemma CreditTotal(r0: seq<Client>, txs: seq<Tx>, s: Table, i: nat)
    requires TableInv(r0, txs, s) && CanStep(txs, s, i) && s.phases[i].PaidOut?
    ensures Total(StepOf(txs, s, i).rows) == Total(s.rows) + Ceil(txs[i].pay) - (if Whole(txs[i].pay) then 0 else 1)
  {
    var tx, p := txs[i], s.phases[i];
    WritesOwnRow(r0, txs, s, i);
    assert LocalOk(r0, tx, p);
    TruncateBalances(OnlineRow(r0, tx.snd).value.balance, p.receiver.balance, tx.pay);
    RoundingLoss(tx.pay);
    hide TableInv, Trunc, Ceil, OnlineRow, StatusOf, ValidRows, LocalOk, Update, Total, UniqueNames, Whole;
    TotalUpdate(s.rows, Credited(p.receiver, tx.pay), p.receiver);
  }

  lemma {:induction false} FreshOutstanding(txs: seq<Tx>, phases: seq<Phase>)
    requires |txs| == |phases| && forall i | 0 <= i < |txs| :: phases[i].Start?
    ensures OutstandingSum(txs, phases) == 0
  {
    if txs != [] { FreshOutstanding(txs[..|txs| - 1], phases[..|txs| - 1]); }
  }

  lemma {:induction false} MoneyRun(r0: seq<Client>, txs: seq<Tx>, s: Table, schedule: seq<nat>)
    requires TableInv(r0, txs, s) && Legal(txs, s, schedule)
    ensures var s' := Result(txs, s, schedule);
      |s'.phases| == |txs| == |s.phases| &&
      Total(s'.rows) + OutstandingSum(txs, s'.phases) == Total(s.rows) + OutstandingSum(txs, s.phases)
    decreases |schedule|
  {
    assert |s.phases| == |txs|;
    hide TableInv, StepOf, CanStep, OutstandingSum, Total;
    if schedule != [] {
      MoneyStep(r0, txs, s, schedule[0]);
      StepInv(r0, txs, s, schedule[0]);
      MoneyRun(r0, txs, StepOf(txs, s, schedule[0]), schedule[1..]);
    }
  }

  /** At every point of every interleaving, the money in the table plus what has
      been debited and not credited, plus one unit for each settled amount that
      is not a whole number, is the money at the start. */
  lemma {:induction false} MoneyInFlight(r0: seq<Client>, txs: seq<Tx>, schedule: seq<nat>)
    requires ValidRows(r0) && Disjoint(txs) && Legal(txs, Fresh(r0, txs), schedule)
    ensures var s := Result(txs, Fresh(r0, txs), schedule);
      |s.phases| == |txs| && Total(s.rows) + OutstandingSum(txs, s.phases) == Total(r0)
  {
    FreshInv(r0, txs);
    FreshOutstanding(txs, Fresh(r0, txs).phases);
    MoneyRun(r0, txs, Fresh(r0, txs), schedule);
  }
}
