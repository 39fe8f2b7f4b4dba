/** Which interleavings of user_transaction are not serialisable: as soon as two
    of the transfers share an account, the last copy written back there wipes out
    what the others did, and in some schedule no serial order explains the result. */
module Overlap {
  import opened Wrappers
  import opened Ledger
  import opened LedgerRuns
  import opened Interleaving

  /** Each transfer would be accepted on its own, and pays a whole amount. */
  ghost predicate AllAccepted(r0: seq<Client>, txs: seq<Tx>) {
    forall i | 0 <= i < |txs| ::
      TransferStatus(r0, txs[i].snd, txs[i].rcv, txs[i].pay) == TRANSFER_OK && Whole(txs[i].pay)
  }

  /** Some serial order of the atomic calls gives the same table and statuses. */
  ghost predicate Serialisable(r0: seq<Client>, txs: seq<Tx>, s: Table) {
    exists order :: Pending(Fresh(r0, txs), txs, order) && Serial(txs, Fresh(r0, txs), order) == s
  }

  ghost predicate Complete(r0: seq<Client>, txs: seq<Tx>, schedule: seq<nat>) {
    Legal(txs, Fresh(r0, txs), schedule) && AllDone(Result(txs, Fresh(r0, txs), schedule))
  }

  ghost predicate AlwaysSerialises(r0: seq<Client>, txs: seq<Tx>) {
    forall schedule | Complete(r0, txs, schedule) :: Serialisable(r0, txs, Result(txs, Fresh(r0, txs), schedule))
  }

  // ---------------------------------------------------------------- a schedule in which j writes last

  /** The copies that transfer tx works on when it has read the original rows. */
  function Copies(r0: seq<Client>, tx: Tx): Phase
    requires TransferStatus(r0, tx.snd, tx.rcv, tx.pay) == TRANSFER_OK
  {
    Funded(OnlineRow(r0, tx.snd).value, OnlineRow(r0, tx.rcv).value)
  }

  /** The first k transfers have read. */
  ghost predicate HaveRead(r0: seq<Client>, txs: seq<Tx>, s: Table, k: nat)
    requires AllAccepted(r0, txs)
  {
    && s.rows == r0 && |s.phases| == |txs|
    && forall i | 0 <= i < |txs| :: s.phases[i] == if i < k then Copies(r0, txs[i]) else Start
  }

  /** All of the first k transfers but j have written, the others have only read. */
  ghost predicate HaveWritten(r0: seq<Client>, txs: seq<Tx>, s: Table, k: nat, j: nat)
    requires AllAccepted(r0, txs)
  {
    && |s.rows| == |r0| && (forall n | 0 <= n < |r0| :: s.rows[n].username == r0[n].username)
    && |s.phases| == |txs|
    && forall i | 0 <= i < |txs| :: s.phases[i] == if i < k && i != j then Done(TRANSFER_OK) else Copies(r0, txs[i])
  }

  lemma {:induction false} ReadAll(r0: seq<Client>, txs: seq<Tx>, k: nat) returns (schedule: seq<nat>)
    requires AllAccepted(r0, txs) && k <= |txs|
    ensures Legal(txs, Fresh(r0, txs), schedule)
    ensures HaveRead(r0, txs, Result(txs, Fresh(r0, txs), schedule), k)
  {
    hide TransferStatus, OnlineRow, StepOf, CanStep;
    if k == 0 {
      NoSteps(txs, Fresh(r0, txs));
      return [];
    }
    var before := ReadAll(r0, txs, k - 1);
    var s := Result(txs, Fresh(r0, txs), before);
    hide Legal, Result;
    AloneReads(txs, s, k - 1);
    Append(txs, Fresh(r0, txs), before, [k - 1, k - 1]);
    return before + [k - 1, k - 1];
  }

  lemma {:induction false} WriteAllBut(r0: seq<Client>, txs: seq<Tx>, s: Table, k: nat, j: nat) returns (schedule: seq<nat>)
    requires AllAccepted(r0, txs) && k <= |txs| && HaveWritten(r0, txs, s, k, j)
    ensures Legal(txs, s, schedule)
    ensures HaveWritten(r0, txs, Result(txs, s, schedule), |txs|, j)
    decreases |txs| - k
  {
    hide TransferStatus, OnlineRow, StepOf, CanStep, Trunc, Legal, Result;
    if k == |txs| {
      NoSteps(txs, s);
      return [];
    }
    if k == j {
      schedule := WriteAllBut(r0, txs, s, k + 1, j);
      return;
    }
    AloneWrites(txs, s, k, s.phases[k].sender, s.phases[k].receiver);
    var s' := Result(txs, s, [k, k]);
    var rest := WriteAllBut(r0, txs, s', k + 1, j);
    Append(txs, s, [k, k], rest);
    return [k, k] + rest;
  }

  /** What an accepted transfer does to the balance of user x. */
  function Effect(tx: Tx, x: string): int {
    (if tx.rcv == x then tx.pay.Floor else 0) - (if tx.snd == x then Ceil(tx.pay) else 0)
  }

  /** The rows after the writes of transfer tx from its original copies. */
  lemma {:induction false} LastWrite(r0: seq<Client>, tx: Tx, rows: seq<Client>, x: string)
    requires ValidRows(r0) && TransferStatus(r0, tx.snd, tx.rcv, tx.pay) == TRANSFER_OK && Touches(tx, x)
    requires UniqueNames(rows) && Row(rows, tx.snd).Some? && Row(rows, tx.rcv).Some?
    ensures var sender, receiver := OnlineRow(r0, tx.snd).value, OnlineRow(r0, tx.rcv).value;
      var paid := Update(rows, sender.(balance := Trunc(sender.balance as real - tx.pay)));
      BalanceOf(Update(paid, receiver.(balance := Trunc(receiver.balance as real + tx.pay))), x)
        == BalanceOf(r0, x) + Effect(tx, x)
  {
    hide Trunc, Ceil, ValidRows, Row, OnlineRow, UniqueNames, Update, TransferStatus;
    AcceptedOnline(r0, tx);
    var sender, receiver := OnlineRow(r0, tx.snd).value, OnlineRow(r0, tx.rcv).value;
    TruncateBalances(sender.balance, receiver.balance, tx.pay);
    var debited, credited := Debited(sender, tx.pay), Credited(receiver, tx.pay);
    UpdateKeepsNames(rows, debited);
    RowAfterUpdate(rows, debited, tx.rcv);
    RowAfterUpdate(rows, debited, x);
    RowAfterUpdate(Update(rows, debited), credited, x);
  }

  lemma {:induction false} AcceptedOnline(r0: seq<Client>, tx: Tx)
    requires ValidRows(r0) && TransferStatus(r0, tx.snd, tx.rcv, tx.pay) == TRANSFER_OK
    ensures tx.snd != tx.rcv && OnlineRow(r0, tx.snd).Some? && OnlineRow(r0, tx.rcv).Some?
    ensures var sender, receiver := OnlineRow(r0, tx.snd).value, OnlineRow(r0, tx.rcv).value;
      && Row(r0, tx.snd) == Some(sender) && Row(r0, tx.rcv) == Some(receiver)
      && sender.username == tx.snd && receiver.username == tx.rcv
      && 0.0 < tx.pay <= sender.balance as real && 0 <= receiver.balance
  {
  }

  lemma SameNames(r0: seq<Client>, rows: seq<Client>)
    requires UniqueNames(r0) && |rows| == |r0| && forall n | 0 <= n < |r0| :: rows[n].username == r0[n].username
    ensures UniqueNames(rows)
  {
  }

  /** All have read, and all but j have written. */
  lemma OthersFirst(r0: seq<Client>, txs: seq<Tx>, j: nat) returns (schedule: seq<nat>)
    requires AllAccepted(r0, txs)
    ensures Legal(txs, Fresh(r0, txs), schedule)
    ensures HaveWritten(r0, txs, Result(txs, Fresh(r0, txs), schedule), |txs|, j)
  {
    hide TransferStatus, OnlineRow, Legal, Result;
    var read := ReadAll(r0, txs, |txs|);
    var s := Result(txs, Fresh(r0, txs), read);
    var others := WriteAllBut(r0, txs, s, 0, j);
    Append(txs, Fresh(r0, txs), read, others);
    return read + others;
  }

  /** The last step of LastWriterWins. */
  lemma {:induction false} WriteLast(r0: seq<Client>, txs: seq<Tx>, s: Table, j: nat, x: string)
    requires ValidRows(r0) && AllAccepted(r0, txs) && j < |txs| && Touches(txs[j], x)
    requires HaveWritten(r0, txs, s, |txs|, j)
    ensures Legal(txs, s, [j, j])
    ensures var end := Result(txs, s, [j, j]);
      && |end.phases| == |txs| && (forall i | 0 <= i < |txs| :: end.phases[i] == Done(TRANSFER_OK))
      && BalanceOf(end.rows, x) == BalanceOf(r0, x) + Effect(txs[j], x)
  {
    hide TransferStatus, OnlineRow, Trunc, Legal, Result, Row, ValidRows, UniqueNames, Update, BalanceOf, Effect, Touches;
    var tx := txs[j];
    AcceptedRows(r0, tx);
    SameNames(r0, s.rows);
    NamesStay(r0, s.rows, tx.snd);
    NamesStay(r0, s.rows, tx.rcv);
    LastWrite(r0, tx, s.rows, x);
    AloneWrites(txs, s, j, s.phases[j].sender, s.phases[j].receiver);
  }

  /** Whatever the other transfers did: when j writes last, from what it read at the
      start, the accounts of j end as if j had been the only transfer. */
  lemma LastWriterWins(r0: seq<Client>, txs: seq<Tx>, j: nat, x: string) returns (schedule: seq<nat>)
    requires ValidRows(r0) && AllAccepted(r0, txs) && j < |txs| && Touches(txs[j], x)
    ensures Complete(r0, txs, schedule)
    ensures var s := Result(txs, Fresh(r0, txs), schedule);
      && |s.phases| == |txs| && (forall i | 0 <= i < |txs| :: s.phases[i] == Done(TRANSFER_OK))
      && BalanceOf(s.rows, x) == BalanceOf(r0, x) + Effect(txs[j], x)
  {
    hide AllAccepted, HaveWritten, Legal, Result, ValidRows, BalanceOf, Effect, Touches;
    var first := OthersFirst(r0, txs, j);
    WriteLast(r0, txs, Result(txs, Fresh(r0, txs), first), j, x);
    Append(txs, Fresh(r0, txs), first, [j, j]);
    return first + [j, j];
  }

  lemma {:induction false} AcceptedRows(r0: seq<Client>, tx: Tx)
    requires ValidRows(r0) && TransferStatus(r0, tx.snd, tx.rcv, tx.pay) == TRANSFER_OK
    ensures UniqueNames(r0) && Row(r0, tx.snd).Some? && Row(r0, tx.rcv).Some? && tx.snd != tx.rcv && tx.pay > 0.0
  {
  }

  // ---------------------------------------------------------------- serial runs add up

  /** The effects of the transfers in a serial order, and of the first n. */
  ghost function Along(txs: seq<Tx>, order: seq<nat>, x: string): int
    requires forall k | 0 <= k < |order| :: order[k] < |txs|
  {
    if order == [] then 0 else Effect(txs[order[0]], x) + Along(txs, order[1..], x)
  }

  ghost function UpTo(txs: seq<Tx>, n: nat, x: string): int
    requires n <= |txs|
  {
    if n == 0 then 0 else UpTo(txs, n - 1, x) + Effect(txs[n - 1], x)
  }

  lemma {:induction false} AcceptedEffect(rows: seq<Client>, tx: Tx, x: string)
    requires ValidRows(rows) && TransferStatus(rows, tx.snd, tx.rcv, tx.pay) == TRANSFER_OK && Row(rows, x).Some?
    ensures var rows' := Transfer(rows, tx.snd, tx.rcv, tx.pay).rows;
      Row(rows', x).Some? && BalanceOf(rows', x) == BalanceOf(rows, x) + Effect(tx, x)
  {
    hide Transfer, TransferStatus, Ceil;
    var rows' := Transfer(rows, tx.snd, tx.rcv, tx.pay).rows;
    TransferRows(rows, tx.snd, tx.rcv, tx.pay);
    TransferValid(rows, tx.snd, tx.rcv, tx.pay);
    var k :| 0 <= k < |rows| && rows[k] == Row(rows, x).value;
    RowAt(rows, k);
    RowAt(rows', k);
  }

  lemma {:induction false} PhaseStays(txs: seq<Tx>, s: Table, order: seq<nat>, i: nat)
    requires |txs| == |s.phases| && (forall k | 0 <= k < |order| :: order[k] < |txs|) && i < |txs| && i !in order
    ensures |Serial(txs, s, order).phases| == |txs| && Serial(txs, s, order).phases[i] == s.phases[i]
    decreases |order|
  {
    hide Transfer, TransferStatus;
    if order != [] { PhaseStays(txs, CallOne(txs, s, order[0]), order[1..], i); }
  }

  ghost predicate DistinctOrder(txs: seq<Tx>, order: seq<nat>) {
    && (forall k | 0 <= k < |order| :: order[k] < |txs|)
    && (forall m, n | 0 <= m < n < |order| :: order[m] != order[n])
  }

  /** A serial run that accepts every transfer adds all the effects up. */
  lemma {:induction false} SerialAddsUp(txs: seq<Tx>, s: Table, order: seq<nat>, x: string)
    requires |txs| == |s.phases| && DistinctOrder(txs, order) && ValidRows(s.rows) && Row(s.rows, x).Some?
    requires var end := Serial(txs, s, order);
      |end.phases| == |txs| && forall k | 0 <= k < |order| :: end.phases[order[k]] == Done(TRANSFER_OK)
    ensures BalanceOf(Serial(txs, s, order).rows, x) == BalanceOf(s.rows, x) + Along(txs, order, x)
    decreases |order|
  {
    hide Transfer, TransferStatus, Row, Effect, ValidRows, BalanceOf;
    if order != [] {
      var i, s' := order[0], CallOne(txs, s, order[0]);
      assert i !in order[1..];
      PhaseStays(txs, s', order[1..], i);
      assert s'.phases[i] == Done(TRANSFER_OK);
      AcceptedEffect(s.rows, txs[i], x);
      TransferValid(s.rows, txs[i].snd, txs[i].rcv, txs[i].pay);
      SerialAddsUp(txs, s', order[1..], x);
    }
  }

  lemma {:induction false} AlongSplit(txs: seq<Tx>, a: seq<nat>, b: seq<nat>, x: string)
    requires (forall k | 0 <= k < |a| :: a[k] < |txs|) && (forall k | 0 <= k < |b| :: b[k] < |txs|)
    ensures Along(txs, a + b, x) == Along(txs, a, x) + Along(txs, b, x)
  {
    if a == [] {
      assert a + b == b;
    } else {
      assert (a + b)[1..] == a[1..] + b;
      AlongSplit(txs, a[1..], b, x);
    }
  }

  lemma {:induction false} AlongWithout(txs: seq<Tx>, order: seq<nat>, k: nat, x: string)
    requires k < |order| && forall m | 0 <= m < |order| :: order[m] < |txs|
    ensures Along(txs, order, x) == Along(txs, order[..k] + order[k + 1..], x) + Effect(txs[order[k]], x)
  {
    hide Effect, Along;
    var a, b := order[..k], order[k + 1..];
    assert order == a + ([order[k]] + b);
    AlongSplit(txs, a, [order[k]] + b, x);
    AlongSplit(txs, [order[k]], b, x);
    AlongSplit(txs, a, b, x);
    AlongOne(txs, order[k], x);
  }

  lemma {:induction false} AlongOne(txs: seq<Tx>, i: nat, x: string)
    requires i < |txs|
    ensures Along(txs, [i], x) == Effect(txs[i], x)
  {
  }

  lemma HasLast(order: seq<nat>, n: nat) returns (k: nat)
    requires 0 < n && forall i: nat :: i in order <==> i < n
    ensures k < |order| && order[k] == n - 1
  {
    var last: nat := n - 1;
    assert last in order;
    k :| k < |order| && order[k] == last;
  }

  /** The order does not matter to the sum. */
  lemma {:induction false} AlongAnyOrder(txs: seq<Tx>, order: seq<nat>, n: nat, x: string)
    requires n <= |txs| && DistinctOrder(txs, order) && forall i: nat :: i in order <==> i < n
    ensures Along(txs, order, x) == UpTo(txs, n, x)
  {
    hide Effect;
    if n == 0 {
      assert forall k | 0 <= k < |order| :: order[k] in order;
      assert order == [];
    } else {
      hide Along;
      var k := HasLast(order, n);
      RemoveLast(txs, order, n, k);
      AlongWithout(txs, order, k, x);
      AlongAnyOrder(txs, order[..k] + order[k + 1..], n - 1, x);
    }
  }

  lemma RemoveLast(txs: seq<Tx>, order: seq<nat>, n: nat, k: nat)
    requires 0 < n <= |txs| && DistinctOrder(txs, order) && (forall i: nat :: i in order <==> i < n)
    requires k < |order| && order[k] == n - 1
    ensures var rest := order[..k] + order[k + 1..];
      DistinctOrder(txs, rest) && forall i: nat :: i in rest <==> i < n - 1
  {
    var rest := order[..k] + order[k + 1..];
    forall m | 0 <= m < |rest| ensures rest[m] in order && rest[m] != n - 1 {
      var m' := if m < k then m else m + 1;
      assert rest[m] == order[m'];
    }
    forall i: nat | i < n - 1 ensures i in rest {
      assert i in order;
      var m :| 0 <= m < |order| && order[m] == i;
      assert rest[if m < k then m else m - 1] == i;
    }
  }

  // ---------------------------------------------------------------- no account explains itself

  ghost function TouchCount(txs: seq<Tx>, n: nat, x: string): nat
    requires n <= |txs|
  {
    if n == 0 then 0 else TouchCount(txs, n - 1, x) + if Touches(txs[n - 1], x) then 1 else 0
  }

  lemma {:induction false} TouchTwice(txs: seq<Tx>, n: nat, x: string, i: nat, j: nat)
    requires n <= |txs| && i < n && j < n && Touches(txs[i], x) && Touches(txs[j], x)
    ensures TouchCount(txs, n, x) >= if i == j then 1 else 2
  {
    hide Touches;
    if i == n - 1 && j == n - 1 {
    } else if i == n - 1 {
      TouchTwice(txs, n - 1, x, j, j);
    } else if j == n - 1 {
      TouchTwice(txs, n - 1, x, i, i);
    } else {
      TouchTwice(txs, n - 1, x, i, j);
    }
  }

  /** If every transfer on x had the same effect e, the sum would be a multiple of e. */
  lemma {:induction false} SameEffects(txs: seq<Tx>, n: nat, x: string, e: int)
    requires n <= |txs| && forall i | 0 <= i < n && Touches(txs[i], x) :: Effect(txs[i], x) == e
    ensures UpTo(txs, n, x) == e * TouchCount(txs, n, x)
  {
    if n > 0 {
      SameEffects(txs, n - 1, x, e);
      var count := TouchCount(txs, n - 1, x);
      assert e * (count + 1) == e * count + e;
      hide Ceil;
    }
  }

  lemma WholeEffect(r0: seq<Client>, tx: Tx, x: string)
    requires ValidRows(r0) && TransferStatus(r0, tx.snd, tx.rcv, tx.pay) == TRANSFER_OK && Whole(tx.pay) && Touches(tx, x)
    ensures Effect(tx, x) != 0
  {
  }

  lemma NotItsMultiple(e: int, count: nat)
    requires e != 0 && count >= 2
    ensures e != e * count
  {
  }

  /** Of several transfers on x, one has an effect that differs from their sum. */
  lemma SomeEffectDiffers(r0: seq<Client>, txs: seq<Tx>, x: string, i: nat, j: nat) returns (k: nat)
    requires ValidRows(r0) && AllAccepted(r0, txs)
    requires i < |txs| && j < |txs| && i != j && Touches(txs[i], x) && Touches(txs[j], x)
    ensures k < |txs| && Touches(txs[k], x) && Effect(txs[k], x) != UpTo(txs, |txs|, x)
  {
    var sum := UpTo(txs, |txs|, x);
    hide Effect, Touches;
    if m :| 0 <= m < |txs| && Touches(txs[m], x) && Effect(txs[m], x) != sum {
      return m;
    }
    SameEffects(txs, |txs|, x, sum);
    TouchTwice(txs, |txs|, x, i, j);
    WholeEffect(r0, txs[i], x);
    NotItsMultiple(sum, TouchCount(txs, |txs|, x));
    return i;
  }

  // ---------------------------------------------------------------- the exact condition

  lemma SharedAccountBreaks(r0: seq<Client>, txs: seq<Tx>, i: nat, j: nat, x: string) returns (schedule: seq<nat>)
    requires ValidRows(r0) && AllAccepted(r0, txs)
    requires i < |txs| && j < |txs| && i != j && Touches(txs[i], x) && Touches(txs[j], x)
    ensures Complete(r0, txs, schedule) && !Serialisable(r0, txs, Result(txs, Fresh(r0, txs), schedule))
  {
    hide AllAccepted, Legal, Result, Row, ValidRows, Effect, Touches, BalanceOf, UpTo, Serial;
    var k := SomeEffectDiffers(r0, txs, x, i, j);
    schedule := LastWriterWins(r0, txs, k, x);
    var s := Result(txs, Fresh(r0, txs), schedule);
    forall order | Pending(Fresh(r0, txs), txs, order) && Serial(txs, Fresh(r0, txs), order) == s
      ensures false
    {
      SerialSum(r0, txs, order, x, k);
    }
  }

  /** Every serial order that accepts all transfers ends with the same balance of x. */
  lemma {:induction false} SerialSum(r0: seq<Client>, txs: seq<Tx>, order: seq<nat>, x: string, k: nat)
    requires ValidRows(r0) && AllAccepted(r0, txs) && k < |txs| && Touches(txs[k], x)
    requires Pending(Fresh(r0, txs), txs, order)
    requires var end := Serial(txs, Fresh(r0, txs), order);
      |end.phases| == |txs| && forall i | 0 <= i < |txs| :: end.phases[i] == Done(TRANSFER_OK)
    ensures BalanceOf(Serial(txs, Fresh(r0, txs), order).rows, x) == BalanceOf(r0, x) + UpTo(txs, |txs|, x)
  {
    hide TransferStatus, Serial, Row, ValidRows, Effect, BalanceOf, UpTo, Along;
    AcceptedRows(r0, txs[k]);
    PendingCovers(r0, txs, order);
    SerialAddsUp(txs, Fresh(r0, txs), order, x);
    AlongAnyOrder(txs, order, |txs|, x);
  }

  lemma AnOrder(r0: seq<Client>, txs: seq<Tx>) returns (order: seq<nat>)
    ensures Pending(Fresh(r0, txs), txs, order)
  {
    order := seq(|txs|, i => i);
    forall i: nat | i < |txs| ensures i in order {
      assert order[i] == i;
    }
  }

  lemma PendingCovers(r0: seq<Client>, txs: seq<Tx>, order: seq<nat>)
    requires Pending(Fresh(r0, txs), txs, order)
    ensures DistinctOrder(txs, order) && forall i: nat :: i in order <==> i < |txs|
  {
  }

  /** Transfers that would each be accepted, of whole amounts, and any number of
      them: every complete interleaving has the table and the statuses of some
      serial order if and only if no two of them share an account. */
  lemma SerialisableIffDisjoint(r0: seq<Client>, txs: seq<Tx>)
    requires ValidRows(r0) && AllAccepted(r0, txs)
    ensures AlwaysSerialises(r0, txs) <==> Disjoint(txs)
  {
    hide Legal, Result, ValidRows, AllDone, Pending, Serial, AllAccepted, Fresh, Touches;
    if Disjoint(txs) {
      var order := AnOrder(r0, txs);
      forall schedule | Complete(r0, txs, schedule)
        ensures Serialisable(r0, txs, Result(txs, Fresh(r0, txs), schedule))
      {
        DisjointTransfersSerialise(r0, txs, schedule, order);
      }
    } else {
      var i, j, x :| 0 <= i < |txs| && 0 <= j < |txs| && Touches(txs[i], x) && Touches(txs[j], x) && i != j;
      var schedule := SharedAccountBreaks(r0, txs, i, j, x);
    }
  }

  // ---------------------------------------------------------------- money out of nothing

  /** The rows after both transfers have worked on copies of the original rows. */
  function Crossed(r0: seq<Client>, tx: Tx, tx': Tx): seq<Client>
    requires TransferStatus(r0, tx.snd, tx.rcv, tx.pay) == TRANSFER_OK
    requires TransferStatus(r0, tx'.snd, tx'.rcv, tx'.pay) == TRANSFER_OK
  {
    var first := Update(Update(r0, Debited(OnlineRow(r0, tx.snd).value, tx.pay)), Credited(OnlineRow(r0, tx.rcv).value, tx.pay));
    Update(Update(first, Debited(OnlineRow(r0, tx'.snd).value, tx'.pay)), Credited(OnlineRow(r0, tx'.rcv).value, tx'.pay))
  }

  ghost predicate BothAccepted(r0: seq<Client>, tx: Tx, tx': Tx) {
    && TransferStatus(r0, tx.snd, tx.rcv, tx.pay) == TRANSFER_OK && Whole(tx.pay)
    && TransferStatus(r0, tx'.snd, tx'.rcv, tx'.pay) == TRANSFER_OK && Whole(tx'.pay)
  }

  /** One transfer of a pair writes what it has read at the start. */
  lemma {:induction false} WriteOne(r0: seq<Client>, txs: seq<Tx>, s: Table, i: nat)
    requires ValidRows(r0) && AllAccepted(r0, txs) && i < |txs| == |s.phases| && s.phases[i] == Copies(r0, txs[i])
    ensures Legal(txs, s, [i, i])
    ensures var sender, receiver := OnlineRow(r0, txs[i].snd).value, OnlineRow(r0, txs[i].rcv).value;
      Result(txs, s, [i, i]) ==
        Table(Update(Update(s.rows, Debited(sender, txs[i].pay)), Credited(receiver, txs[i].pay)),
              s.phases[i := Done(TRANSFER_OK)])
  {
    hide TransferStatus, OnlineRow, Trunc, Legal, Result, ValidRows, Update;
    AloneWrites(txs, s, i, s.phases[i].sender, s.phases[i].receiver);
    WritesTruncate(r0, txs[i]);
  }

  /** Both writes of both transfers, once both have read. */
  lemma CrossedWrites(r0: seq<Client>, tx: Tx, tx': Tx, s: Table)
    requires ValidRows(r0) && BothAccepted(r0, tx, tx')
    requires s.rows == r0 && s.phases == [Copies(r0, tx), Copies(r0, tx')]
    ensures Legal([tx, tx'], s, [0, 0] + [1, 1])
    ensures Result([tx, tx'], s, [0, 0] + [1, 1]) == Table(Crossed(r0, tx, tx'), [Done(TRANSFER_OK), Done(TRANSFER_OK)])
  {
    hide TransferStatus, OnlineRow, Legal, Result, ValidRows, Update, Debited, Credited, Copies;
    var txs := [tx, tx'];
    WriteOne(r0, txs, s, 0);
    var s1 := Result(txs, s, [0, 0]);
    assert s1.phases == [Done(TRANSFER_OK), Copies(r0, tx')];
    WriteOne(r0, txs, s1, 1);
    assert s1.phases[1 := Done(TRANSFER_OK)] == [Done(TRANSFER_OK), Done(TRANSFER_OK)];
    Append(txs, s, [0, 0], [1, 1]);
  }

  /** Both transfers read, then both write. */
  lemma CrossedSchedule(r0: seq<Client>, tx: Tx, tx': Tx) returns (schedule: seq<nat>)
    requires ValidRows(r0) && BothAccepted(r0, tx, tx')
    ensures Complete(r0, [tx, tx'], schedule)
    ensures Result([tx, tx'], Fresh(r0, [tx, tx']), schedule) ==
      Table(Crossed(r0, tx, tx'), [Done(TRANSFER_OK), Done(TRANSFER_OK)])
  {
    hide TransferStatus, Legal, Result, ValidRows, Crossed, Copies;
    var txs := [tx, tx'];
    var read := ReadAll(r0, txs, 2);
    var s := Result(txs, Fresh(r0, txs), read);
    assert s.phases == [Copies(r0, tx), Copies(r0, tx')];
    CrossedWrites(r0, tx, tx', s);
    hide AllAccepted, HaveRead, Fresh;
    Append(txs, Fresh(r0, txs), read, [0, 0] + [1, 1]);
    return read + ([0, 0] + [1, 1]);
  }

  lemma WritesTruncate(r0: seq<Client>, tx: Tx)
    requires ValidRows(r0) && TransferStatus(r0, tx.snd, tx.rcv, tx.pay) == TRANSFER_OK
    ensures var sender, receiver := OnlineRow(r0, tx.snd).value, OnlineRow(r0, tx.rcv).value;
      && sender.(balance := Trunc(sender.balance as real - tx.pay)) == Debited(sender, tx.pay)
      && receiver.(balance := Trunc(receiver.balance as real + tx.pay)) == Credited(receiver, tx.pay)
  {
  }

  /** A write changes the money in the table by what it changes in its own row. */
  lemma {:induction false} WriteTotal(rows: seq<Client>, c: Client)
    requires UniqueNames(rows) && Row(rows, c.username).Some?
    ensures Total(Update(rows, c)) == Total(rows) - BalanceOf(rows, c.username) + c.balance
    ensures UniqueNames(Update(rows, c))
    ensures forall x :: Row(Update(rows, c), x).Some? <==> Row(rows, x).Some?
    ensures forall x :: BalanceOf(Update(rows, c), x) == if x == c.username then c.balance else BalanceOf(rows, x)
  {
    hide Total, UniqueNames, Update;
    TotalUpdate(rows, c, Row(rows, c.username).value);
    UpdateKeepsNames(rows, c);
    forall x ensures Row(Update(rows, c), x) == if x == c.username then Some(c) else Row(rows, x) {
      RowAfterUpdate(rows, c, x);
    }
  }

  lemma {:induction false} CrossedTotal(r0: seq<Client>, tx: Tx, tx': Tx)
    requires ValidRows(r0) && BothAccepted(r0, tx, tx') && tx.snd == tx'.snd && tx.rcv != tx'.rcv
    ensures Total(Crossed(r0, tx, tx')) == Total(r0) + tx.pay.Floor
  {
    hide TransferStatus, OnlineRow, ValidRows, Update, Total, Row, UniqueNames, Ceil, BalanceOf;
    AcceptedOnline(r0, tx);
    AcceptedOnline(r0, tx');
    AcceptedRows(r0, tx);
    RoundingLoss(tx.pay);
    RoundingLoss(tx'.pay);
    Balances(r0, tx);
    Balances(r0, tx');
    var a, b := Debited(OnlineRow(r0, tx.snd).value, tx.pay), Credited(OnlineRow(r0, tx.rcv).value, tx.pay);
    var a', b' := Debited(OnlineRow(r0, tx'.snd).value, tx'.pay), Credited(OnlineRow(r0, tx'.rcv).value, tx'.pay);
    WriteTotal(r0, a);
    WriteTotal(Update(r0, a), b);
    WriteTotal(Update(Update(r0, a), b), a');
    WriteTotal(Update(Update(Update(r0, a), b), a'), b');
  }

  lemma Balances(r0: seq<Client>, tx: Tx)
    requires ValidRows(r0) && TransferStatus(r0, tx.snd, tx.rcv, tx.pay) == TRANSFER_OK
    ensures BalanceOf(r0, tx.snd) == OnlineRow(r0, tx.snd).value.balance
    ensures BalanceOf(r0, tx.rcv) == OnlineRow(r0, tx.rcv).value.balance
  {
  }

  /** Two whole payments out of one account to different receivers, whatever the
      table: some schedule accepts both and creates as much money as the first pays. */
  lemma SharedPayerCreatesMoney(r0: seq<Client>, tx: Tx, tx': Tx) returns (schedule: seq<nat>)
    requires ValidRows(r0) && BothAccepted(r0, tx, tx') && tx.snd == tx'.snd && tx.rcv != tx'.rcv
    ensures Complete(r0, [tx, tx'], schedule)
    ensures var s := Result([tx, tx'], Fresh(r0, [tx, tx']), schedule);
      && s.phases == [Done(TRANSFER_OK), Done(TRANSFER_OK)]
      && Total(s.rows) == Total(r0) + tx.pay.Floor > Total(r0)
  {
    hide TransferStatus, Legal, Result, ValidRows, Total, Crossed;
    schedule := CrossedSchedule(r0, tx, tx');
    CrossedTotal(r0, tx, tx');
    AcceptedRows(r0, tx);
  }

  /** It happens: two payments of 10 out of an account with 10. */
  lemma OverlapCreatesMoney() returns (r0: seq<Client>, txs: seq<Tx>, schedule: seq<nat>)
    ensures ValidRows(r0) && Complete(r0, txs, schedule)
    ensures Total(Result(txs, Fresh(r0, txs), schedule).rows) > Total(r0)
  {
    var a, b, c := Client("a", "h", 1, 1, 1, 10), Client("b", "h", 2, 2, 1, 0), Client("c", "h", 3, 3, 1, 0);
    r0 := [a, b, c];
    RowAt(r0, 0);
    RowAt(r0, 1);
    RowAt(r0, 2);
    hide Row, Legal, Result, Total;
    schedule := SharedPayerCreatesMoney(r0, Tx("a", "b", 10.0), Tx("a", "c", 10.0));
    txs := [Tx("a", "b", 10.0), Tx("a", "c", 10.0)];
  }
}
