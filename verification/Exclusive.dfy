/**
 Runs in which resolutions of the same row do not overlap.

 The resolver's wallet-error path releases its claim before it writes REJECTED, and UpdateStatusTx has no
 status guard, so the results here need this assumption.
 */
module Exclusive {
  import opened Results
  import opened MoneyValue
  import opened WalletAggregate
  import opened Transactions
  import opened Tables
  import opened Machine
  import opened Invariants
  import opened StoreProofs

  // ---------------------------------------------------------------- the assumption

  /** The row that an unfinished call is resolving. */
  function Resolving(actor: Actor): Option<nat> {
    if actor.call.Resolve? && !actor.pc.Done? then Some(actor.call.id) else None
  }

  ghost predicate NoOverlap(s: Sys) {
    forall a, b | a in s.actors && b in s.actors && a != b && Resolving(s.actors[a]).Some? ::
      Resolving(s.actors[a]) != Resolving(s.actors[b])
  }

  /** No two resolutions of the same row overlap anywhere in the run. */
  ghost predicate ExclusiveRun(labels: seq<Label>) {
    forall k :: 0 <= k <= |labels| ==> NoOverlap(Exec(INIT, labels[..k]))
  }

  // ---------------------------------------------------------------- what it gives

  ghost predicate RefProcessed(rows: seq<Row>, ref: Option<nat>) {
    ref.Some? ==> ref.value < |rows| && rows[ref.value].state.status == PROCESSED
  }

  predicate HasEntry(ledger: seq<Entry>, tx: nat) {
    exists k :: 0 <= k < |ledger| && ledger[k].tx == tx
  }

  /** Exactly the processed rows that move money have a ledger entry. */
  ghost predicate RowLedgerOk(st: Store) {
    forall i :: 0 <= i < |st.rows| ==>
      (HasEntry(st.ledger, i) <==> st.rows[i].state.status == PROCESSED && st.rows[i].core.kind != LOSS)
  }

  ghost predicate RefsProcessed(rows: seq<Row>) {
    forall i :: 0 <= i < |rows| && rows[i].state.status == PROCESSED ==> RefProcessed(rows, rows[i].state.ref)
  }

  ghost predicate BudgetOk(rows: seq<Row>) {
    forall i :: 0 <= i < |rows| ==> rows[i].state.attempts <= MAX_REF_ATTEMPTS
  }

  /** The events about one transaction, in commit order. */
  function EventsOfTx(outbox: seq<Event>, tx: nat): seq<Event> {
    if outbox == [] then []
    else
      var last := outbox[|outbox| - 1];
      EventsOfTx(outbox[..|outbox| - 1], tx) + if !last.BalanceChanged? && last.tx == tx then [last] else []
  }

  /** The events that the life of a row calls for: one for parking, one for its end. */
  ghost predicate HistoryOk(row: Row, tx: nat, evs: seq<Event>) {
    match row.state.status
    case PENDING => evs == []
    case FAILED => evs == []
    case PENDING_REFERENCE => evs == [TransactionParked(tx)]
    case PROCESSED =>
      || evs == [TransactionProcessed(tx, row.core.amount)]
      || evs == [TransactionParked(tx), TransactionProcessed(tx, row.core.amount)]
    case REJECTED =>
      || evs == [TransactionRejected(tx, row.core.amount, row.state.failure)]
      || evs == [TransactionParked(tx), TransactionRejected(tx, row.core.amount, row.state.failure)]
  }

  ghost predicate TxHistoryOk(st: Store, tx: nat) {
    if tx < |st.rows| then HistoryOk(st.rows[tx], tx, EventsOfTx(st.outbox, tx)) else EventsOfTx(st.outbox, tx) == []
  }

  ghost predicate HistoriesOk(st: Store) {
    forall tx: nat :: TxHistoryOk(st, tx)
  }

  ghost predicate StoreR(st: Store) {
    RowLedgerOk(st) && RefsProcessed(st.rows) && BudgetOk(st.rows) && HistoriesOk(st)
  }

  /** A write that updates only unfinished rows, and refers only to processed ones. */
  ghost predicate WriteR(rows: seq<Row>, w: Write) {
    match w
    case Insert(row, _) => RefProcessed(rows, row.state.ref)
    case Settle(id, status, _, ref, _) =>
      && id < |rows| && !Terminal(rows[id].state.status) && RefProcessed(rows, ref)
      && (status == FAILED ==> rows[id].state.status == PENDING)
    case Wait(id) => id < |rows| && rows[id].state.attempts < MAX_REF_ATTEMPTS
    case Open(_, _, _, _) => true
  }

  ghost predicate PcR(rows: seq<Row>, call: Call, pc: Pc) {
    match pc
    case Claim(tx) => call.Resolve? && call.id < |rows| && rows[call.id] == tx
    case FindReference(_, parked) =>
      parked.Some? ==> parked.value < |rows| && rows[parked.value].state.attempts < MAX_REF_ATTEMPTS
    case CheckReversed(_, _, ref, refRow) => ref < |rows| && rows[ref] == refRow && refRow.state.status == PROCESSED
    case LockWallet(job) => RefProcessed(rows, job.ref)
    case Update(job, _, _) => RefProcessed(rows, job.ref)
    case Commit(w, _) => WriteR(rows, w) && (w.Settle? ==> rows[w.id].state.status == PENDING_REFERENCE)
    case _ => true
  }

  ghost predicate ActorsR(s: Sys) {
    forall a :: a in s.actors ==> PcR(s.store.rows, s.actors[a].call, s.actors[a].pc)
  }

  ghost predicate InvR(s: Sys) {
    StoreR(s.store) && ActorsR(s)
  }

  // ---------------------------------------------------------------- writes

  /** Once a row is PROCESSED, REJECTED or FAILED no write changes it. */
  lemma TerminalFixed(st: Store, w: Write)
    requires Applicable(st, w) && WriteOk(st, w) && WriteR(st.rows, w)
    ensures forall i :: 0 <= i < |st.rows| && Terminal(st.rows[i].state.status) ==> Apply(st, w).rows[i] == st.rows[i]
  {
    ApplyRows(st, w);
  }

  lemma HasEntryAppend(ledger: seq<Entry>, e: Entry, tx: nat)
    ensures HasEntry(ledger + [e], tx) <==> HasEntry(ledger, tx) || e.tx == tx
  {
    var l := ledger + [e];
    if HasEntry(ledger, tx) {
      var k :| 0 <= k < |ledger| && ledger[k].tx == tx;
      assert l[k].tx == tx;
    }
    if e.tx == tx {
      assert l[|ledger|].tx == tx;
    }
    if HasEntry(l, tx) && e.tx != tx {
      var k :| 0 <= k < |l| && l[k].tx == tx;
      assert ledger[k].tx == tx;
    }
  }

  lemma NoEntryYet(st: Store, tx: nat)
    requires EntriesOk(st) && (tx < |st.rows| ==> !Terminal(st.rows[tx].state.status))
    ensures !HasEntry(st.ledger, tx)
  {
    forall k | 0 <= k < |st.ledger|
      ensures st.ledger[k].tx != tx
    {
      assert EntryOk(st.rows, st.ledger[k]);
    }
  }

  lemma WriteKeepsRowLedger(st: Store, w: Write)
    requires EntriesOk(st) && RowLedgerOk(st) && Applicable(st, w) && WriteOk(st, w) && WriteR(st.rows, w)
    ensures RowLedgerOk(Apply(st, w))
  {
    ApplyRows(st, w);
    ApplyLedger(st, w);
    TerminalFixed(st, w);
    var st' := Apply(st, w);
    forall i | 0 <= i < |st'.rows|
      ensures HasEntry(st'.ledger, i) <==> st'.rows[i].state.status == PROCESSED && st'.rows[i].core.kind != LOSS
    {
      if Posted(st, w).Some? {
        HasEntryAppend(st.ledger, Posted(st, w).value, i);
      }
      if i >= |st.rows| || !Terminal(st.rows[i].state.status) {
        NoEntryYet(st, i);
        WrittenRowLedger(st, w, i);
      }
    }
  }

  /** A write makes a row PROCESSED and moving money exactly when it posts an entry for it. */
  lemma WrittenRowLedger(st: Store, w: Write, i: nat)
    requires Applicable(st, w) && WriteOk(st, w) && WriteR(st.rows, w)
    requires i < |Apply(st, w).rows| && (i < |st.rows| ==> !Terminal(st.rows[i].state.status))
    ensures var row := Apply(st, w).rows[i];
            (row.state.status == PROCESSED && row.core.kind != LOSS) <==>
              (Posted(st, w).Some? && Posted(st, w).value.tx == i)
  {
    ApplyRows(st, w);
    match w {
      case Insert(row, None) =>
      case Insert(row, Some(mv)) => assert MovementOk(st.rows, row.core, mv.dir, row.state.ref);
      case Settle(id, status, failure, ref, None) =>
      case Settle(id, status, failure, ref, Some(mv)) => assert MovementOk(st.rows, st.rows[id].core, mv.dir, ref);
      case Wait(id) =>
      case Open(wallet, player, provider, initial) =>
    }
  }

  lemma WriteKeepsRefs(st: Store, w: Write)
    requires RowsOk(st.rows) && RefsProcessed(st.rows) && Applicable(st, w) && WriteOk(st, w) && WriteR(st.rows, w)
    ensures RefsProcessed(Apply(st, w).rows)
  {
    ApplyRows(st, w);
    TerminalFixed(st, w);
    var rows' := Apply(st, w).rows;
    forall i | 0 <= i < |rows'| && rows'[i].state.status == PROCESSED
      ensures RefProcessed(rows', rows'[i].state.ref)
    {
      if i < |st.rows| {
        assert RowOk(st.rows, st.rows[i]);
      }
      WrittenRefProcessed(st, w, i);
    }
  }

  lemma WrittenRefProcessed(st: Store, w: Write, i: nat)
    requires RefsProcessed(st.rows) && Applicable(st, w) && WriteOk(st, w) && WriteR(st.rows, w)
    requires i < |Apply(st, w).rows| && Apply(st, w).rows[i].state.status == PROCESSED
    requires i < |st.rows| ==> RowOk(st.rows, st.rows[i])
    ensures RefProcessed(st.rows, Apply(st, w).rows[i].state.ref)
  {
    ApplyRows(st, w);
  }

  lemma WriteKeepsBudget(st: Store, w: Write)
    requires BudgetOk(st.rows) && Applicable(st, w) && WriteOk(st, w) && WriteR(st.rows, w)
    ensures BudgetOk(Apply(st, w).rows)
  {
    ApplyRows(st, w);
  }

  // ---------------------------------------------------------------- histories

  lemma EventsOfTxAppend(outbox: seq<Event>, ev: Event, tx: nat)
    ensures EventsOfTx(outbox + [ev], tx) ==
            EventsOfTx(outbox, tx) + if !ev.BalanceChanged? && ev.tx == tx then [ev] else []
  {
    assert (outbox + [ev])[..|outbox|] == outbox;
  }

  lemma StatusEventsOfTx(outbox: seq<Event>, tx: nat, row: Row, i: nat)
    ensures EventsOfTx(outbox + StatusEvents(tx, row), i) ==
            EventsOfTx(outbox, i) + if i == tx then StatusEvents(tx, row) else []
  {
    var evs := StatusEvents(tx, row);
    if evs == [] {
      assert outbox + evs == outbox;
    } else {
      assert evs == [evs[0]];
      EventsOfTxAppend(outbox, evs[0], i);
    }
  }

  lemma MoveEventsOfTx(outbox: seq<Event>, tx: nat, money: Money, mv: Move, i: nat)
    ensures EventsOfTx(outbox + MoveEvents(tx, money, mv), i) ==
            EventsOfTx(outbox, i) + if i == tx then [TransactionProcessed(tx, money)] else []
  {
    var evs := MoveEvents(tx, money, mv);
    EventsOfTxAppend(outbox, evs[0], i);
    if |evs| == 1 {
      assert outbox + evs == outbox + [evs[0]];
    } else {
      assert outbox + evs == (outbox + [evs[0]]) + [evs[1]];
      EventsOfTxAppend(outbox + [evs[0]], evs[1], i);
    }
  }

  /** The event that a write adds to the history of the row it writes. */
  function NewEvents(st: Store, w: Write): seq<Event>
    requires Applicable(st, w)
  {
    match w
    case Wait(_) => []
    case Open(_, _, _, initial) => if initial.amount == 0 then [] else [TransactionProcessed(|st.rows|, initial)]
    case _ => StatusEvents(WrittenRow(st, w), Apply(st, w).rows[WrittenRow(st, w)])
  }

  lemma WriteAddsEvents(st: Store, w: Write, i: nat)
    requires Applicable(st, w) && WriteOk(st, w)
    ensures EventsOfTx(Apply(st, w).outbox, i) ==
            EventsOfTx(st.outbox, i) + if i == WrittenRow(st, w) then NewEvents(st, w) else []
  {
    var tx := WrittenRow(st, w);
    match w {
      case Insert(row, None) => StatusEventsOfTx(st.outbox, tx, row, i);
      case Insert(row, Some(mv)) => MoveEventsOfTx(st.outbox, tx, row.core.amount, mv, i);
      case Settle(id, status, failure, ref, None) => StatusEventsOfTx(st.outbox, id, Apply(st, w).rows[id], i);
      case Settle(id, status, failure, ref, Some(mv)) => MoveEventsOfTx(st.outbox, id, st.rows[id].core.amount, mv, i);
      case Wait(id) => assert EventsOfTx(st.outbox, i) + [] == EventsOfTx(st.outbox, i);
      case Open(wallet, player, provider, initial) =>
        if initial.amount != 0 {
          MoveEventsOfTx(st.outbox, tx, initial, OpeningMove(wallet, initial), i);
        } else {
          assert EventsOfTx(st.outbox, i) + [] == EventsOfTx(st.outbox, i);
        }
    }
  }

  lemma InsertHistory(st: Store, w: Write)
    requires w.Insert? && WriteOk(st, w) && Applicable(st, w) && TxHistoryOk(st, |st.rows|)
    ensures TxHistoryOk(Apply(st, w), |st.rows|)
  {
    WriteAddsEvents(st, w, |st.rows|);
    var evs := NewEvents(st, w);
    assert EventsOfTx(st.outbox, |st.rows|) == [];
    assert EventsOfTx(Apply(st, w).outbox, |st.rows|) == evs;
    assert Apply(st, w).rows[|st.rows|] == w.row;
  }

  lemma SettleHistory(st: Store, w: Write)
    requires w.Settle? && WriteOk(st, w) && Applicable(st, w) && WriteR(st.rows, w) && TxHistoryOk(st, w.id)
    ensures TxHistoryOk(Apply(st, w), w.id)
  {
    WriteAddsEvents(st, w, w.id);
    var before, evs := EventsOfTx(st.outbox, w.id), NewEvents(st, w);
    assert EventsOfTx(Apply(st, w).outbox, w.id) == before + evs;
    if st.rows[w.id].state.status == PENDING {
      assert before + evs == evs;
    } else {
      assert before == [TransactionParked(w.id)];
    }
  }

  lemma OtherHistory(st: Store, w: Write, i: nat)
    requires WriteOk(st, w) && Applicable(st, w) && TxHistoryOk(st, i)
    requires i != WrittenRow(st, w) || w.Wait? || w.Open?
    ensures TxHistoryOk(Apply(st, w), i)
  {
    ApplyRows(st, w);
    WriteAddsEvents(st, w, i);
    var before := EventsOfTx(st.outbox, i);
    assert before + [] == before;
    if w.Open? && i == |st.rows| {
      assert before == [] && [] + NewEvents(st, w) == NewEvents(st, w);
    }
  }

  lemma WriteKeepsHistories(st: Store, w: Write)
    requires HistoriesOk(st) && WriteOk(st, w) && Applicable(st, w) && WriteR(st.rows, w)
    ensures HistoriesOk(Apply(st, w))
  {
    forall i: nat
      ensures TxHistoryOk(Apply(st, w), i)
    {
      if i == WrittenRow(st, w) && w.Insert? {
        InsertHistory(st, w);
      } else if i == WrittenRow(st, w) && w.Settle? {
        SettleHistory(st, w);
      } else {
        OtherHistory(st, w, i);
      }
    }
  }

  lemma WriteKeepsStoreR(st: Store, w: Write)
    requires RowsOk(st.rows) && EntriesOk(st) && StoreR(st) && Applicable(st, w) && WriteOk(st, w) && WriteR(st.rows, w)
    ensures StoreR(Apply(st, w))
  {
    WriteKeepsRowLedger(st, w);
    WriteKeepsRefs(st, w);
    WriteKeepsBudget(st, w);
    WriteKeepsHistories(st, w);
  }
}
