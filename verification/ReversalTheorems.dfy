/** What reversals guarantee over whole runs. */
module ReversalTheorems {
  import opened Results
  import opened WalletAggregate
  import opened Transactions
  import opened Tables
  import opened Machine
  import opened Invariants
  import opened StoreProofs
  import opened SystemProofs
  import opened Runs
  import opened ExternalIds
  import opened Exclusive
  import opened ExclusiveProofs
  import opened References

  // ---------------------------------------------------------------- row, ledger and outbox agree

  predicate Parked(rows: seq<Row>, i: nat) {
    i < |rows| && rows[i].state.status == PENDING_REFERENCE
  }

  /** Some state of the run had row i waiting for its reference. */
  ghost predicate WasParked(labels: seq<Label>, i: nat) {
    exists k :: 0 <= k <= |labels| && Parked(Exec(INIT, labels[..k]).store.rows, i)
  }

  lemma WriteParks(st: Store, w: Write, i: nat)
    requires WriteOk(st, w) && Applicable(st, w)
    requires Parked(st.rows, i) ==> TransactionParked(i) in st.outbox
    ensures TransactionParked(i) in Apply(st, w).outbox <==>
            TransactionParked(i) in st.outbox || Parked(Apply(st, w).rows, i)
  {
    ApplyRows(st, w);
    if w.Insert? && w.move.None? && w.row.state.status == PENDING_REFERENCE {
      assert StatusEvents(|st.rows|, w.row) == [TransactionParked(|st.rows|)];
    }
  }

  lemma {:induction false} WasParkedStep(labels: seq<Label>, i: nat)
    requires labels != []
    ensures WasParked(labels, i) <==>
            WasParked(labels[..|labels| - 1], i) || Parked(Exec(INIT, labels).store.rows, i)
  {
    var front := labels[..|labels| - 1];
    assert labels[..|labels|] == labels;
    assert forall k :: 0 <= k <= |front| ==> front[..k] == labels[..k];
    if WasParked(front, i) {
      var k :| 0 <= k <= |front| && Parked(Exec(INIT, front[..k]).store.rows, i);
      assert Parked(Exec(INIT, labels[..k]).store.rows, i);
    }
    if WasParked(labels, i) {
      var k :| 0 <= k <= |labels| && Parked(Exec(INIT, labels[..k]).store.rows, i);
      assert k < |labels| ==> Parked(Exec(INIT, front[..k]).store.rows, i);
    }
  }

  /** In every run, exactly the rows that were ever parked have a parking event. */
  lemma {:induction false} ParkingEvents(labels: seq<Label>, i: nat)
    ensures TransactionParked(i) in Exec(INIT, labels).store.outbox <==> WasParked(labels, i)
    ensures Parked(Exec(INIT, labels).store.rows, i) ==> WasParked(labels, i)
  {
    if labels != [] {
      var front := labels[..|labels| - 1];
      ParkingEvents(front, i);
      WasParkedStep(labels, i);
      ReachableInv(front);
      LastStepParks(Exec(INIT, front), labels[|labels| - 1], i);
    }
  }

  lemma LastStepParks(s: Sys, l: Label, i: nat)
    requires Inv(s) && (Parked(s.store.rows, i) ==> TransactionParked(i) in s.store.outbox)
    ensures TransactionParked(i) in Next(s, l).store.outbox <==>
            TransactionParked(i) in s.store.outbox || Parked(Next(s, l).store.rows, i)
  {
    NextByWrite(s, l);
    if Next(s, l).store != s.store {
      var w :| WriteOk(s.store, w) && Applicable(s.store, w) && Admits(s.store, w)
        && Next(s, l).store == Apply(s.store, w);
      WriteParks(s.store, w, i);
    }
  }

  lemma {:induction false} InEventsOfTx(outbox: seq<Event>, tx: nat)
    ensures TransactionParked(tx) in EventsOfTx(outbox, tx) <==> TransactionParked(tx) in outbox
  {
    if outbox != [] {
      InEventsOfTx(outbox[..|outbox| - 1], tx);
      assert outbox == outbox[..|outbox| - 1] + [outbox[|outbox| - 1]];
    }
  }

  /** The event of a row's end. */
  function ClosingEvents(tx: nat, row: Row): seq<Event> {
    if row.state.status == PENDING_REFERENCE then [] else StatusEvents(tx, row)
  }

  lemma ExactHistory(row: Row, tx: nat, evs: seq<Event>)
    requires HistoryOk(row, tx, evs)
    ensures evs == (if TransactionParked(tx) in evs then [TransactionParked(tx)] else []) + ClosingEvents(tx, row)
  {
  }

  /**
   In an exclusive run a row has exactly one ledger entry, of its own amount, if it is PROCESSED and not a LOSS, and
   none otherwise. Its events are the parking event, if it was ever parked, and the event of its end, if it has ended.
   */
  lemma {:induction false} RowLedgerOutboxAgree(labels: seq<Label>, i: nat)
    requires ExclusiveRun(labels) && i < |Exec(INIT, labels).store.rows|
    ensures var st := Exec(INIT, labels).store;
            && (HasEntry(st.ledger, i) <==> st.rows[i].state.status == PROCESSED && st.rows[i].core.kind != LOSS)
            && (forall m, n | 0 <= m < |st.ledger| && 0 <= n < |st.ledger| && st.ledger[m].tx == st.ledger[n].tx == i ::
                  m == n)
            && (forall m | 0 <= m < |st.ledger| && st.ledger[m].tx == i ::
                  st.ledger[m].amount == st.rows[i].core.amount && st.ledger[m].wallet == st.rows[i].core.req.wallet)
            && EventsOfTx(st.outbox, i) ==
               (if WasParked(labels, i) then [TransactionParked(i)] else []) + ClosingEvents(i, st.rows[i])
  {
    ReachableInv(labels);
    ReachableR(labels);
    var st := Exec(INIT, labels).store;
    forall m | 0 <= m < |st.ledger| && st.ledger[m].tx == i
      ensures st.ledger[m].amount == st.rows[i].core.amount && st.ledger[m].wallet == st.rows[i].core.req.wallet
    {
      assert EntryOk(st.rows, st.ledger[m]);
    }
    assert TxHistoryOk(st, i);
    ExactHistory(st.rows[i], i, EventsOfTx(st.outbox, i));
    InEventsOfTx(st.outbox, i);
    ParkingEvents(labels, i);
  }

  // ---------------------------------------------------------------- terminal is absorbing

  lemma WriteRFixes(s: Sys, a: nat)
    requires ActorsOk(s) && ActorsR(s) && a in s.actors && s.actors[a].pc.Commit?
    ensures WriteOk(s.store, s.actors[a].pc.write) && WriteR(s.store.rows, s.actors[a].pc.write)
  {
    assert PcOk(s.store, s.actors[a].call, s.actors[a].pc) && PcR(s.store.rows, s.actors[a].call, s.actors[a].pc);
  }

  ghost predicate TerminalKept(rows: seq<Row>, rows': seq<Row>) {
    |rows| <= |rows'| && forall i :: 0 <= i < |rows| && Terminal(rows[i].state.status) ==> rows'[i] == rows[i]
  }

  lemma WriteKeepsTerminal(st: Store, w: Write)
    requires WriteOk(st, w) && WriteR(st.rows, w) && Applicable(st, w)
    ensures TerminalKept(st.rows, Apply(st, w).rows)
  {
    ApplyRows(st, w);
    TerminalFixed(st, w);
  }

  lemma NextKeepsTerminal(s: Sys, l: Label)
    requires RowsOk(s.store.rows) && ActorsOk(s) && ActorsR(s)
    ensures TerminalKept(s.store.rows, Next(s, l).store.rows)
  {
    match l {
      case Step(a, o) =>
        if a in s.actors && s.actors[a].pc.Commit? && Applicable(s.store, s.actors[a].pc.write) {
          WriteRFixes(s, a);
          WriteKeepsTerminal(s.store, s.actors[a].pc.write);
        }
      case ForeignSettle(id, status) =>
        if id < |s.store.rows| && ForeignWrite(s.store, id, status).Some? {
          ForeignWriteR(s.store, id, status);
          var w := ForeignWrite(s.store, id, status).value;
          WriteOkApplicable(s.store, w);
          WriteKeepsTerminal(s.store, w);
        }
      case _ =>
    }
  }

  lemma {:induction false} LastStepKeepsTerminal(labels: seq<Label>)
    requires ExclusiveRun(labels) && labels != []
    ensures TerminalKept(Exec(INIT, labels[..|labels| - 1]).store.rows, Exec(INIT, labels).store.rows)
    ensures ExclusiveRun(labels[..|labels| - 1])
  {
    var front := labels[..|labels| - 1];
    PrefixExclusive(labels, |labels| - 1);
    ReachableInv(front);
    ReachableR(front);
    NextKeepsTerminal(Exec(INIT, front), labels[|labels| - 1]);
  }

  /** Once a row is PROCESSED, REJECTED or FAILED, nothing in the rest of an exclusive run changes it. */
  lemma {:induction false} TerminalAbsorbing(labels: seq<Label>, more: seq<Label>, i: nat)
    requires ExclusiveRun(labels + more)
    requires i < |Exec(INIT, labels).store.rows| && Terminal(Exec(INIT, labels).store.rows[i].state.status)
    ensures i < |Exec(INIT, labels + more).store.rows|
    ensures Exec(INIT, labels + more).store.rows[i] == Exec(INIT, labels).store.rows[i]
  {
    if more == [] {
      assert labels + more == labels;
    } else {
      var front := more[..|more| - 1];
      var all := labels + more;
      assert all[..|all| - 1] == labels + front;
      LastStepKeepsTerminal(all);
      TerminalAbsorbing(labels, front, i);
    }
  }

  // ---------------------------------------------------------------- reversals undo exactly

  predicate ProcessedReversal(row: Row) {
    Reversal(row.core.kind) && row.state.status == PROCESSED
  }

  /** What the two ledger entries of a reversal and of its reference have in common. */
  ghost predicate Paired(rows: seq<Row>, i: nat, mine: Entry, refs: Entry)
    requires i < |rows|
  {
    && mine.tx == i && rows[i].state.ref == Some(refs.tx) && refs.tx < |rows|
    && mine.wallet == refs.wallet
    && mine.amount == refs.amount
    && (mine.dir == Opposite(refs.dir) <==> rows[i].core.kind == ROLLBACK || refs.dir == DEBIT)
    && (Signed(mine.dir, mine.amount) + Signed(refs.dir, refs.amount) == 0 <==> mine.dir == Opposite(refs.dir))
    && (rows[refs.tx].core.kind == BET ==> refs.dir == DEBIT)
  }

  /**
   Every processed reversal, whichever path it took, has a ledger entry on the wallet and of the amount of its
   reference's entry. The two cancel out exactly if it is a ROLLBACK or its reference debited the wallet, as every BET
   does; a REFUND of anything that credited the wallet credits it a second time.
   */
  lemma {:induction false} ReversalsUndo(labels: seq<Label>, i: nat) returns (m: nat, n: nat)
    requires ExclusiveRun(labels) && UniqueExternal(Exec(INIT, labels).store.rows)
    requires i < |Exec(INIT, labels).store.rows| && ProcessedReversal(Exec(INIT, labels).store.rows[i])
    ensures var st := Exec(INIT, labels).store;
            m < |st.ledger| && n < |st.ledger| && Paired(st.rows, i, st.ledger[m], st.ledger[n])
  {
    ReachableInv(labels);
    ReachableR(labels);
    ReachableU(labels);
    m, n := EntriesOfPair(Exec(INIT, labels).store, i);
  }

  lemma EntriesOfPair(st: Store, i: nat) returns (m: nat, n: nat)
    requires RowsOk(st.rows) && EntriesOk(st) && RowLedgerOk(st) && RefsProcessed(st.rows) && RowsU(st.rows)
    requires i < |st.rows| && ProcessedReversal(st.rows[i])
    ensures m < |st.ledger| && n < |st.ledger| && Paired(st.rows, i, st.ledger[m], st.ledger[n])
  {
    assert RowOk(st.rows, st.rows[i]) && RowU(st.rows, i);
    var r := st.rows[i].state.ref.value;
    assert RowOk(st.rows, st.rows[r]);
    assert HasEntry(st.ledger, i) && HasEntry(st.ledger, r);
    m :| 0 <= m < |st.ledger| && st.ledger[m].tx == i;
    n :| 0 <= n < |st.ledger| && st.ledger[n].tx == r;
    PairFits(st, i, st.ledger[m], st.ledger[n]);
  }

  lemma PairFits(st: Store, i: nat, mine: Entry, refs: Entry)
    requires i < |st.rows| && ProcessedReversal(st.rows[i]) && RowOk(st.rows, st.rows[i]) && RowU(st.rows, i)
    requires EntryOk(st.rows, mine) && EntryOk(st.rows, refs) && mine.tx == i && st.rows[i].state.ref == Some(refs.tx)
    requires RowOk(st.rows, st.rows[refs.tx])
    ensures Paired(st.rows, i, mine, refs)
  {
  }

  /** Entry m moved money for a reversal of row r. */
  ghost predicate ReversalEntry(st: Store, m: nat, r: nat) {
    && m < |st.ledger| && st.ledger[m].tx < |st.rows|
    && Reversal(st.rows[st.ledger[m].tx].core.kind) && st.rows[st.ledger[m].tx].state.ref == Some(r)
  }

  /** In an exclusive run no row is reversed in money more than once. */
  lemma {:induction false} OneReversalEntry(labels: seq<Label>, m: nat, n: nat, r: nat)
    requires ExclusiveRun(labels)
    ensures var st := Exec(INIT, labels).store; ReversalEntry(st, m, r) && ReversalEntry(st, n, r) ==> m == n
  {
    ReachableInv(labels);
    ReachableR(labels);
    var st := Exec(INIT, labels).store;
    if ReversalEntry(st, m, r) && ReversalEntry(st, n, r) {
      assert HasEntry(st.ledger, st.ledger[m].tx) && HasEntry(st.ledger, st.ledger[n].tx);
      assert Reverses(st.rows[st.ledger[m].tx], r) && Reverses(st.rows[st.ledger[n].tx], r);
    }
  }

  // ---------------------------------------------------------------- chains of reversals

  /** Row i, what it reverses, what that reverses, and so on. */
  function Chain(rows: seq<Row>, i: nat): (c: seq<nat>)
    requires i < |rows|
    ensures c != [] && c[0] == i
    ensures forall k :: 0 <= k < |c| ==> c[k] < |rows|
  {
    if ProcessedReversal(rows[i]) && rows[i].state.ref.Some? && rows[i].state.ref.value < i then
      [i] + Chain(rows, rows[i].state.ref.value)
    else [i]
  }

  /** Processed reversals refer to earlier, processed rows. */
  ghost predicate Descending(rows: seq<Row>) {
    forall i :: 0 <= i < |rows| && ProcessedReversal(rows[i]) ==>
      rows[i].state.ref.Some? && rows[i].state.ref.value < i && rows[rows[i].state.ref.value].state.status == PROCESSED
  }

  lemma {:induction false} ChainDescends(rows: seq<Row>, i: nat)
    requires Descending(rows) && i < |rows|
    ensures forall k :: 0 < k < |Chain(rows, i)| ==> Chain(rows, i)[k] < Chain(rows, i)[k - 1]
    ensures forall k :: 0 <= k < |Chain(rows, i)| ==> Chain(rows, i)[k] <= i
    ensures forall k :: 0 < k < |Chain(rows, i)| ==> Reverses(rows[Chain(rows, i)[k - 1]], Chain(rows, i)[k])
    ensures ProcessedReversal(rows[i]) ==> !Reversal(rows[Chain(rows, i)[|Chain(rows, i)| - 1]].core.kind)
  {
    if ProcessedReversal(rows[i]) {
      ChainDescends(rows, rows[i].state.ref.value);
    }
  }

  lemma ChainStep(rows: seq<Row>, i: nat, x: nat)
    requires Descending(rows) && i < |rows| && x in Chain(rows, i) && x != i
    ensures ProcessedReversal(rows[i]) && x in Chain(rows, rows[i].state.ref.value)
  {
  }

  /** Whatever a chain reaches below its top is reversed by a member of the chain. */
  lemma {:induction false} Reverser(rows: seq<Row>, i: nat, x: nat) returns (y: nat)
    requires Descending(rows) && i < |rows| && x in Chain(rows, i) && x != i
    ensures y in Chain(rows, i) && y < |rows| && Reverses(rows[y], x)
  {
    ChainStep(rows, i, x);
    var r := rows[i].state.ref.value;
    if r == x {
      y := i;
    } else {
      y := Reverser(rows, r, x);
    }
  }

  /** Two chains that share a row are parts of one chain. */
  lemma {:induction false} ChainsDisjoint(rows: seq<Row>, i: nat, j: nat, x: nat)
    requires Descending(rows) && ReversalsUnique(rows) && i < |rows| && j < |rows|
    requires x in Chain(rows, i) && x in Chain(rows, j)
    ensures i in Chain(rows, j) || j in Chain(rows, i)
    decreases i + j
  {
    if x != i && x != j {
      ChainStep(rows, i, x);
      ChainStep(rows, j, x);
      var p, q := rows[i].state.ref.value, rows[j].state.ref.value;
      ChainsDisjoint(rows, p, q, x);
      if p == q {
        assert Reverses(rows[i], p) && Reverses(rows[j], p);
      } else if p in Chain(rows, q) {
        var y := Reverser(rows, q, p);
        assert Reverses(rows[i], p) && y == i;
      } else {
        var y := Reverser(rows, p, q);
        assert Reverses(rows[j], q) && y == j;
      }
    }
  }

  lemma RowsDescend(rows: seq<Row>)
    requires RowsOk(rows) && RowsU(rows) && RefsProcessed(rows)
    ensures Descending(rows)
  {
    forall i | 0 <= i < |rows| && ProcessedReversal(rows[i])
      ensures rows[i].state.ref.Some? && rows[i].state.ref.value < i
      ensures rows[rows[i].state.ref.value].state.status == PROCESSED
    {
      assert RowOk(rows, rows[i]) && RowU(rows, i);
    }
  }

  ghost predicate ChainsOk(rows: seq<Row>, i: nat, j: nat)
    requires i < |rows| && j < |rows|
  {
    var c, d := Chain(rows, i), Chain(rows, j);
    && (forall k :: 0 < k < |c| ==> c[k] < c[k - 1] && Reverses(rows[c[k - 1]], c[k]))
    && (ProcessedReversal(rows[i]) ==> |c| > 1 && !Reversal(rows[c[|c| - 1]].core.kind))
    && ((exists x :: x in c && x in d) ==> i in d || j in c)
  }

  /**
   Processed reversals form chains that strictly descend in commit order and end in a row that is not a reversal;
   two chains that meet are parts of one chain.
   */
  lemma {:induction false} ReversalChains(labels: seq<Label>, i: nat, j: nat)
    requires ExclusiveRun(labels) && UniqueExternal(Exec(INIT, labels).store.rows)
    requires i < |Exec(INIT, labels).store.rows| && j < |Exec(INIT, labels).store.rows|
    ensures ChainsOk(Exec(INIT, labels).store.rows, i, j)
  {
    RunDescends(labels);
    DescendingChains(Exec(INIT, labels).store.rows, i, j);
  }

  lemma DescendingChains(rows: seq<Row>, i: nat, j: nat)
    requires Descending(rows) && ReversalsUnique(rows) && i < |rows| && j < |rows|
    ensures ChainsOk(rows, i, j)
  {
    ChainDescends(rows, i);
    MeetingChains(rows, i, j);
  }

  lemma MeetingChains(rows: seq<Row>, i: nat, j: nat)
    requires Descending(rows) && ReversalsUnique(rows) && i < |rows| && j < |rows|
    ensures (exists x :: x in Chain(rows, i) && x in Chain(rows, j)) ==> i in Chain(rows, j) || j in Chain(rows, i)
  {
    if x :| x in Chain(rows, i) && x in Chain(rows, j) {
      ChainsDisjoint(rows, i, j, x);
    }
  }

  lemma {:induction false} RunDescends(labels: seq<Label>)
    requires ExclusiveRun(labels) && UniqueExternal(Exec(INIT, labels).store.rows)
    ensures Descending(Exec(INIT, labels).store.rows) && ReversalsUnique(Exec(INIT, labels).store.rows)
  {
    ReachableInv(labels);
    ReachableR(labels);
    ReachableU(labels);
    RowsDescend(Exec(INIT, labels).store.rows);
  }
}
