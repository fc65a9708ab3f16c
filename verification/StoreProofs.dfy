/** Every committed write keeps the store's invariants. */
module StoreProofs {
  import opened Results
  import opened MoneyValue
  import opened WalletAggregate
  import opened Transactions
  import opened Tables
  import opened Machine
  import opened Invariants

  // ---------------------------------------------------------------- what a write leaves alone

  /** Rows are only appended, and the fixed columns of old rows stay. */
  ghost predicate Grows(rows: seq<Row>, rows': seq<Row>) {
    |rows| <= |rows'| && forall i :: 0 <= i < |rows| ==> rows'[i].core == rows[i].core
  }

  function TouchedRow(w: Write): Option<nat> {
    match w
    case Settle(id, _, _, _, _) => Some(id)
    case Wait(id) => Some(id)
    case _ => None
  }

  function TouchedWallet(w: Write): Option<string> {
    match w
    case Insert(_, Some(mv)) => Some(mv.wallet)
    case Settle(_, _, _, _, Some(mv)) => Some(mv.wallet)
    case _ => None
  }

  lemma WriteOkApplicable(st: Store, w: Write)
    requires WriteOk(st, w)
    ensures Applicable(st, w)
  {
  }

  lemma ApplyRows(st: Store, w: Write)
    requires Applicable(st, w)
    ensures var rows' := Apply(st, w).rows;
            && Grows(st.rows, rows')
            && |rows'| <= |st.rows| + 1
            && (forall i :: 0 <= i < |st.rows| && TouchedRow(w) != Some(i) ==> rows'[i] == st.rows[i])
  {
  }

  lemma ApplyWallets(st: Store, w: Write)
    requires Applicable(st, w) && Admits(st, w)
    ensures var wallets' := Apply(st, w).wallets;
            && st.wallets.Keys <= wallets'.Keys
            && (forall x :: x in st.wallets && TouchedWallet(w) != Some(x) ==> wallets'[x] == st.wallets[x])
  {
  }

  // ---------------------------------------------------------------- rows

  lemma GrowsKeepsReference(rows: seq<Row>, rows': seq<Row>, c: Core)
    requires Grows(rows, rows') && ReferenceExists(rows, c)
    ensures ReferenceExists(rows', c)
  {
    var r :| 0 <= r < |rows| && HasExternal(rows[r].core, c.req.provider, c.req.reference);
    assert HasExternal(rows'[r].core, c.req.provider, c.req.reference);
  }

  lemma GrowsKeepsRow(rows: seq<Row>, rows': seq<Row>, row: Row)
    requires Grows(rows, rows') && RowOk(rows, row)
    ensures RowOk(rows', row)
  {
    if row.state.status == PENDING_REFERENCE {
      GrowsKeepsReference(rows, rows', row.core);
    }
  }

  lemma InsertedRowOk(st: Store, w: Write)
    requires w.Insert? && WriteOk(st, w) && WalletsOk(st.wallets)
    ensures RowOk(st.rows, w.row)
  {
    if w.move.Some? {
      var mv := w.move.value;
      assert MoveOk(st, w.row.core, mv);
    }
  }

  lemma SettledRowOk(st: Store, w: Write)
    requires w.Settle? && WriteOk(st, w) && RowsOk(st.rows)
    ensures RowOk(st.rows, Settled(st.rows[w.id], w.status, w.failure, w.ref))
  {
    assert RowOk(st.rows, st.rows[w.id]);
  }

  lemma ApplyKeepsRows(st: Store, w: Write)
    requires RowsOk(st.rows) && WalletsOk(st.wallets) && WriteOk(st, w)
    ensures Applicable(st, w) && RowsOk(Apply(st, w).rows)
  {
    WriteOkApplicable(st, w);
    ApplyRows(st, w);
    var rows' := Apply(st, w).rows;
    forall i | 0 <= i < |rows'|
      ensures RowOk(rows', rows'[i])
    {
      if i < |st.rows| && TouchedRow(w) != Some(i) {
        GrowsKeepsRow(st.rows, rows', st.rows[i]);
      } else {
        WrittenRowOk(st, w, i);
        GrowsKeepsRow(st.rows, rows', rows'[i]);
      }
    }
  }

  /** The row that a write creates or updates is well-formed. */
  lemma WrittenRowOk(st: Store, w: Write, i: nat)
    requires RowsOk(st.rows) && WalletsOk(st.wallets) && WriteOk(st, w) && Applicable(st, w)
    requires i < |Apply(st, w).rows| && (i >= |st.rows| || TouchedRow(w) == Some(i))
    ensures RowOk(st.rows, Apply(st, w).rows[i])
  {
    match w {
      case Insert(row, move) => InsertedRowOk(st, w);
      case Settle(id, status, failure, ref, move) => SettledRowOk(st, w);
      case Wait(id) => assert RowOk(st.rows, st.rows[id]);
      case Open(wallet, player, provider, initial) =>
    }
  }

  lemma ApplyKeepsWalletsExist(st: Store, w: Write)
    requires WalletsExist(st) && Applicable(st, w) && Admits(st, w)
    ensures WalletsExist(Apply(st, w))
  {
    ApplyRows(st, w);
    ApplyWallets(st, w);
  }

  lemma ApplyKeepsKeys(st: Store, w: Write)
    requires KeysUnique(st.rows) && WriteOk(st, w) && Applicable(st, w) && Admits(st, w)
    ensures KeysUnique(Apply(st, w).rows)
  {
    ApplyRows(st, w);
    var rows' := Apply(st, w).rows;
    forall i, j | 0 <= i < |rows'| && 0 <= j < |rows'| && SameKey(rows'[i].core, rows'[j].core)
      ensures i == j
    {
      if i < |st.rows| && j < |st.rows| {
        assert SameKey(st.rows[i].core, st.rows[j].core);
      } else if i != j {
        NewKeyIsNew(st, w, if i < j then i else j);
      }
    }
  }

  /** The idempotency index admits a new row only under a key that no row has. */
  lemma NewKeyIsNew(st: Store, w: Write, i: nat)
    requires WriteOk(st, w) && Applicable(st, w) && Admits(st, w)
    requires i < |st.rows| < |Apply(st, w).rows|
    ensures var c := Apply(st, w).rows[|st.rows|].core;
            !SameKey(c, st.rows[i].core) && !SameKey(st.rows[i].core, c)
  {
    if w.Insert? {
      assert !HasKey(st.rows[i].core, w.row.core.req.provider, w.row.core.key);
      InsertedCore(st, w);
    }
  }

  lemma InsertedCore(st: Store, w: Write)
    requires w.Insert? && WriteOk(st, w)
    ensures CoreOk(w.row.core)
  {
    if w.move.Some? {
      assert MoveInsertOk(st, w.row, w.move.value);
    }
  }

  /** A row that already counts as a reversal is not changed by a write that makes another row count. */
  lemma ApplyKeepsReversals(st: Store, w: Write)
    requires ReversalsUnique(st.rows) && WriteOk(st, w) && Applicable(st, w) && Admits(st, w)
    ensures ReversalsUnique(Apply(st, w).rows)
  {
    var rows' := Apply(st, w).rows;
    forall i, j, r | 0 <= i < |rows'| && 0 <= j < |rows'| && Reverses(rows'[i], r) && Reverses(rows'[j], r)
      ensures i == j
    {
      if i != j {
        ReversesBefore(st, w, i, r);
        ReversesBefore(st, w, j, r);
      }
    }
  }

  /** A reversal of r after the write was one before, or is the row written, and then the index found no other. */
  lemma ReversesBefore(st: Store, w: Write, i: nat, r: nat)
    requires WriteOk(st, w) && Applicable(st, w) && Admits(st, w)
    requires i < |Apply(st, w).rows| && Reverses(Apply(st, w).rows[i], r)
    ensures (i < |st.rows| && Reverses(st.rows[i], r))
            || (i == WrittenRow(st, w) && forall k :: 0 <= k < |st.rows| ==> !Reverses(st.rows[k], r))
  {
    ApplyRows(st, w);
    match w {
      case Insert(row, move) =>
      case Settle(id, status, failure, ref, move) =>
      case Wait(id) =>
      case Open(wallet, player, provider, initial) =>
    }
  }

  // ---------------------------------------------------------------- ledger entries

  lemma EntryStays(st: Store, w: Write, e: Entry)
    requires RowsOk(st.rows) && WriteOk(st, w) && Applicable(st, w)
    requires EntryOk(st.rows, e)
    ensures EntryOk(Apply(st, w).rows, e)
  {
    ApplyRows(st, w);
    assert RowOk(st.rows, st.rows[e.tx]);
    var rows' := Apply(st, w).rows;
    if TouchedRow(w) == Some(e.tx) {
      assert w.Settle?;
      assert rows'[e.tx] == Settled(st.rows[e.tx], w.status, w.failure, w.ref);
    }
  }

  /** The row whose movement a write posts. */
  function Posted(st: Store, w: Write): Option<Entry> {
    match w
    case Insert(_, Some(mv)) => Some(MoveEntry(|st.rows|, mv))
    case Settle(id, _, _, _, Some(mv)) => Some(MoveEntry(id, mv))
    case Open(wallet, _, _, initial) =>
      if initial.amount == 0 then None else Some(MoveEntry(|st.rows|, OpeningMove(wallet, initial)))
    case _ => None
  }

  lemma ApplyLedger(st: Store, w: Write)
    requires Applicable(st, w)
    ensures Apply(st, w).ledger == st.ledger + (if Posted(st, w).Some? then [Posted(st, w).value] else [])
  {
  }

  lemma PostedEntryOk(st: Store, w: Write)
    requires RowsOk(st.rows) && WriteOk(st, w) && Applicable(st, w) && Posted(st, w).Some?
    ensures EntryOk(Apply(st, w).rows, Posted(st, w).value)
    ensures Posted(st, w).value.tx < |st.rows| ==> !Terminal(st.rows[Posted(st, w).value.tx].state.status)
  {
    match w {
      case Insert(row, Some(mv)) => assert MovementOk(st.rows, row.core, mv.dir, row.state.ref);
      case Settle(id, status, failure, ref, Some(mv)) => assert MovementOk(st.rows, st.rows[id].core, mv.dir, ref);
      case Open(wallet, player, provider, initial) =>
    }
  }

  lemma ApplyKeepsEntries(st: Store, w: Write)
    requires RowsOk(st.rows) && EntriesOk(st) && WriteOk(st, w) && Applicable(st, w)
    ensures EntriesOk(Apply(st, w))
  {
    ApplyLedger(st, w);
    var st' := Apply(st, w);
    forall k | 0 <= k < |st'.ledger|
      ensures EntryOk(st'.rows, st'.ledger[k])
    {
      if k < |st.ledger| {
        assert st'.ledger[k] == st.ledger[k];
        EntryStays(st, w, st.ledger[k]);
      } else {
        PostedEntryOk(st, w);
      }
    }
  }

  lemma ApplyKeepsOneEntryEach(st: Store, w: Write)
    requires RowsOk(st.rows) && EntriesOk(st) && OneEntryEach(st.ledger) && WriteOk(st, w) && Applicable(st, w)
    ensures OneEntryEach(Apply(st, w).ledger)
  {
    ApplyLedger(st, w);
    if Posted(st, w).Some? {
      PostedEntryOk(st, w);
      forall i | 0 <= i < |st.ledger|
        ensures st.ledger[i].tx != Posted(st, w).value.tx
      {
        assert EntryOk(st.rows, st.ledger[i]);
      }
    }
  }

  // ---------------------------------------------------------------- wallets and books

  lemma ApplyKeepsWallets(st: Store, w: Write)
    requires WalletsOk(st.wallets) && WriteOk(st, w) && Applicable(st, w)
    ensures WalletsOk(Apply(st, w).wallets)
  {
  }

  lemma EntriesOfAppend(ledger: seq<Entry>, e: Entry, wallet: string)
    ensures EntriesOf(ledger + [e], wallet) == EntriesOf(ledger, wallet) + if e.wallet == wallet then [e] else []
  {
    assert (ledger + [e])[..|ledger|] == ledger;
  }

  lemma BalanceEventsAppend(outbox: seq<Event>, ev: Event, wallet: string)
    ensures BalanceEvents(outbox + [ev], wallet) ==
            BalanceEvents(outbox, wallet) + if IsBalanceEvent(ev, wallet) then [ev] else []
  {
    assert (outbox + [ev])[..|outbox|] == outbox;
  }

  /** Events that are not about a balance do not show up among a wallet's balance events. */
  lemma StatusEventsIrrelevant(outbox: seq<Event>, tx: nat, row: Row, wallet: string)
    ensures BalanceEvents(outbox + StatusEvents(tx, row), wallet) == BalanceEvents(outbox, wallet)
  {
    if StatusEvents(tx, row) == [] {
      assert outbox + StatusEvents(tx, row) == outbox;
    } else {
      assert outbox + StatusEvents(tx, row) == outbox + [StatusEvents(tx, row)[0]];
      BalanceEventsAppend(outbox, StatusEvents(tx, row)[0], wallet);
    }
  }

  lemma MoveEventsAppend(outbox: seq<Event>, tx: nat, money: Money, mv: Move, wallet: string)
    requires mv.amount.amount > 0
    ensures BalanceEvents(outbox + MoveEvents(tx, money, mv), wallet) ==
            BalanceEvents(outbox, wallet) + if mv.wallet == wallet then [MoveEvents(tx, money, mv)[1]] else []
  {
    var evs := MoveEvents(tx, money, mv);
    assert outbox + evs == (outbox + [evs[0]]) + [evs[1]];
    BalanceEventsAppend(outbox, evs[0], wallet);
    BalanceEventsAppend(outbox + [evs[0]], evs[1], wallet);
  }

  /** The entries of a wallet all come from the ledger. */
  lemma {:induction false} EntriesOfSound(ledger: seq<Entry>, wallet: string, k: nat)
    requires k < |EntriesOf(ledger, wallet)|
    ensures EntriesOf(ledger, wallet)[k] in ledger && EntriesOf(ledger, wallet)[k].wallet == wallet
  {
    var front := ledger[..|ledger| - 1];
    if k < |EntriesOf(front, wallet)| {
      EntriesOfSound(front, wallet, k);
    }
  }

  /** A book stays in order when neither its wallet, its entries nor its events change. */
  lemma BookUntouched(st: Store, st': Store, wallet: string)
    requires BookOk(st, wallet) && EntriesOk(st) && Grows(st.rows, st'.rows)
    requires wallet in st'.wallets <==> wallet in st.wallets
    requires wallet in st.wallets ==> st'.wallets[wallet] == st.wallets[wallet]
    requires EntriesOf(st'.ledger, wallet) == EntriesOf(st.ledger, wallet)
    requires BalanceEvents(st'.outbox, wallet) == BalanceEvents(st.outbox, wallet)
    ensures BookOk(st', wallet)
  {
    EntryRowsKnown(st, wallet);
  }

  lemma EntryRowsKnown(st: Store, wallet: string)
    requires EntriesOk(st)
    ensures forall k :: 0 <= k < |EntriesOf(st.ledger, wallet)| ==> EntriesOf(st.ledger, wallet)[k].tx < |st.rows|
  {
    forall k | 0 <= k < |EntriesOf(st.ledger, wallet)|
      ensures EntriesOf(st.ledger, wallet)[k].tx < |st.rows|
    {
      EntriesOfSound(st.ledger, wallet, k);
      var i :| 0 <= i < |st.ledger| && st.ledger[i] == EntriesOf(st.ledger, wallet)[k];
      assert EntryOk(st.rows, st.ledger[i]);
    }
  }

  /** A book after one more movement that starts from its closing balance. */
  lemma BookExtended(rows: seq<Row>, rows': seq<Row>, w: WalletRow, w': WalletRow,
                     es: seq<Entry>, evs: seq<Event>, e: Entry, ev: Event)
    requires Book(rows, w, es, evs) && Grows(rows, rows')
    requires forall k :: 0 <= k < |es| ==> es[k].tx < |rows|
    requires e.tx < |rows'| && rows'[e.tx].core.kind != OPENING
    requires EntryMath(e) && e.before == w.balance && w'.balance == e.after
    requires w'.version == w.version + 1 && Mirrors(ev, e, w'.version)
    ensures Book(rows', w', es + [e], evs + [ev])
  {
    var es' := es + [e];
    assert Opened(rows', es') == Opened(rows, es);
    assert forall k :: 0 <= k < |es| ==> Linked(es, k) ==> Linked(es', k);
    assert Linked(es', |es|);
    assert OpeningFirst(rows', es');
    assert Mirrored(evs + [ev], es', FirstVersion(rows', es'));
  }

  lemma PlainWriteKeepsBook(st: Store, w: Write, wallet: string)
    requires EntriesOk(st) && BookOk(st, wallet) && WriteOk(st, w) && Applicable(st, w)
    requires w.Wait? || ((w.Insert? || w.Settle?) && w.move.None?)
    ensures BookOk(Apply(st, w), wallet)
  {
    ApplyRows(st, w);
    var st' := Apply(st, w);
    if w.Insert? {
      StatusEventsIrrelevant(st.outbox, |st.rows|, w.row, wallet);
    } else if w.Settle? {
      StatusEventsIrrelevant(st.outbox, w.id, st'.rows[w.id], wallet);
    }
    BookUntouched(st, st', wallet);
  }

  /** The balance change that a write posts, and the row it belongs to. */
  function MoveOf(w: Write): Option<Move> {
    match w
    case Insert(_, move) => move
    case Settle(_, _, _, _, move) => move
    case _ => None
  }

  lemma MoveFacts(st: Store, w: Write)
    requires WalletsOk(st.wallets) && WriteOk(st, w) && Applicable(st, w) && MoveOf(w).Some?
    ensures var mv, tx, st' := MoveOf(w).value, WrittenRow(st, w), Apply(st, w);
            && mv.wallet in st.wallets
            && Change(st.wallets[mv.wallet], mv.dir, mv.amount) == Success(mv.change)
            && tx < |st'.rows| && st'.rows[tx].core.kind != OPENING && CoreOk(st'.rows[tx].core)
            && st'.rows[tx].core.amount == mv.amount
            && st'.ledger == st.ledger + [MoveEntry(tx, mv)]
            && st'.outbox == st.outbox + MoveEvents(tx, mv.amount, mv)
            && (var row := st.wallets[mv.wallet];
                st'.wallets == st.wallets[mv.wallet := row.(balance := mv.change.after, version := row.version + 1)])
  {
    match w {
      case Insert(row, Some(mv)) => assert MoveOk(st, row.core, mv);
      case Settle(id, status, failure, ref, Some(mv)) => assert MoveOk(st, st.rows[id].core, mv);
    }
  }

  lemma MoveEntryMath(w: WalletRow, tx: nat, mv: Move)
    requires WalletRowOk(w) && Change(w, mv.dir, mv.amount) == Success(mv.change)
    ensures EntryMath(MoveEntry(tx, mv)) && mv.amount.amount > 0
    ensures mv.change.before == w.balance && mv.change.version == w.version + 1
  {
  }

  lemma MoveKeepsBook(st: Store, w: Write, wallet: string)
    requires EntriesOk(st) && WalletsOk(st.wallets) && BookOk(st, wallet)
    requires WriteOk(st, w) && Applicable(st, w) && MoveOf(w).Some?
    ensures BookOk(Apply(st, w), wallet)
  {
    ApplyRows(st, w);
    MoveFacts(st, w);
    var mv, tx, st' := MoveOf(w).value, WrittenRow(st, w), Apply(st, w);
    MoveEntryMath(st.wallets[mv.wallet], tx, mv);
    EntriesOfAppend(st.ledger, MoveEntry(tx, mv), wallet);
    MoveEventsAppend(st.outbox, tx, mv.amount, mv, wallet);
    if mv.wallet == wallet {
      EntryRowsKnown(st, wallet);
      BookExtended(st.rows, st'.rows, st.wallets[wallet], st'.wallets[wallet], EntriesOf(st.ledger, wallet),
                   BalanceEvents(st.outbox, wallet), MoveEntry(tx, mv), MoveEvents(tx, mv.amount, mv)[1]);
    } else {
      BookUntouched(st, st', wallet);
    }
  }

  /** What opening a wallet does to the entries and balance events of any wallet. */
  lemma OpenAppends(st: Store, w: Write, wallet: string)
    requires w.Open? && WriteOk(st, w) && w.initial.amount != 0
    ensures var st', e := Apply(st, w), MoveEntry(|st.rows|, OpeningMove(w.wallet, w.initial));
            var zero := Money(0, w.initial.currency);
            var ev := BalanceChanged(w.wallet, |st.rows|, CREDIT, w.initial, zero, w.initial, 1);
            && EntriesOf(st'.ledger, wallet) == EntriesOf(st.ledger, wallet) + (if w.wallet == wallet then [e] else [])
            && BalanceEvents(st'.outbox, wallet) ==
               BalanceEvents(st.outbox, wallet) + if w.wallet == wallet then [ev] else []
  {
    var tx, mv := |st.rows|, OpeningMove(w.wallet, w.initial);
    EntriesOfAppend(st.ledger, MoveEntry(tx, mv), wallet);
    MoveEventsAppend(st.outbox, tx, w.initial, mv, wallet);
  }

  lemma NewBook(rows: seq<Row>, w: WalletRow, e: Entry, ev: Event)
    requires e.tx < |rows| && rows[e.tx].core.kind == OPENING
    requires EntryMath(e) && e.before.amount == 0 && w.balance == e.after && w.version == 1 && Mirrors(ev, e, 1)
    ensures Book(rows, w, [e], [ev])
  {
  }

  lemma OpenStartsBook(st: Store, w: Write)
    requires w.Open? && WriteOk(st, w) && BookOk(st, w.wallet) && w.wallet !in st.wallets
    ensures BookOk(Apply(st, w), w.wallet)
  {
    var st', e := Apply(st, w), MoveEntry(|st.rows|, OpeningMove(w.wallet, w.initial));
    var ev := BalanceChanged(w.wallet, |st.rows|, CREDIT, w.initial, Money(0, w.initial.currency), w.initial, 1);
    if w.initial.amount != 0 {
      OpenAppends(st, w, w.wallet);
      assert EntriesOf(st'.ledger, w.wallet) == [e] && BalanceEvents(st'.outbox, w.wallet) == [ev];
      NewBook(st'.rows, st'.wallets[w.wallet], e, ev);
    } else {
      assert Book(st'.rows, st'.wallets[w.wallet], [], []);
    }
  }

  lemma OpenKeepsOtherBook(st: Store, w: Write, wallet: string)
    requires EntriesOk(st) && BookOk(st, wallet) && w.Open? && WriteOk(st, w) && wallet != w.wallet
    ensures BookOk(Apply(st, w), wallet)
  {
    ApplyRows(st, w);
    if w.initial.amount != 0 {
      OpenAppends(st, w, wallet);
    }
    BookUntouched(st, Apply(st, w), wallet);
  }

  lemma ApplyKeepsBooks(st: Store, w: Write)
    requires EntriesOk(st) && WalletsOk(st.wallets) && BooksOk(st)
    requires WriteOk(st, w) && Applicable(st, w) && Admits(st, w)
    ensures BooksOk(Apply(st, w))
  {
    forall wallet
      ensures BookOk(Apply(st, w), wallet)
    {
      if w.Open? {
        if wallet == w.wallet {
          OpenStartsBook(st, w);
        } else {
          OpenKeepsOtherBook(st, w, wallet);
        }
      } else if MoveOf(w).Some? {
        MoveKeepsBook(st, w, wallet);
      } else {
        PlainWriteKeepsBook(st, w, wallet);
      }
    }
  }

  // ---------------------------------------------------------------- outbox

  lemma MoveEventsOk(w: WalletRow, tx: nat, mv: Move)
    requires WalletRowOk(w) && Change(w, mv.dir, mv.amount) == Success(mv.change)
    ensures EventsOk(MoveEvents(tx, mv.amount, mv))
  {
    MoveEntryMath(w, tx, mv);
  }

  lemma StatusEventsOk(tx: nat, row: Row)
    requires Presentable(row.core.amount)
    ensures EventsOk(StatusEvents(tx, row))
  {
  }

  lemma EventsAppend(outbox: seq<Event>, evs: seq<Event>)
    requires EventsOk(outbox) && EventsOk(evs)
    ensures EventsOk(outbox + evs)
  {
  }

  lemma ApplyKeepsEvents(st: Store, w: Write)
    requires RowsOk(st.rows) && WalletsOk(st.wallets) && EventsOk(st.outbox) && WriteOk(st, w) && Applicable(st, w)
    ensures EventsOk(Apply(st, w).outbox)
  {
    if MoveOf(w).Some? {
      MoveFacts(st, w);
      var mv := MoveOf(w).value;
      MoveEventsOk(st.wallets[mv.wallet], WrittenRow(st, w), mv);
      EventsAppend(st.outbox, MoveEvents(WrittenRow(st, w), mv.amount, mv));
    } else if w.Insert? {
      InsertedCore(st, w);
      StatusEventsOk(|st.rows|, w.row);
      EventsAppend(st.outbox, StatusEvents(|st.rows|, w.row));
    } else if w.Settle? {
      assert RowOk(st.rows, st.rows[w.id]);
      var row := Settled(st.rows[w.id], w.status, w.failure, w.ref);
      StatusEventsOk(w.id, row);
      EventsAppend(st.outbox, StatusEvents(w.id, row));
    } else if w.Open? && w.initial.amount != 0 {
      EventsAppend(st.outbox, MoveEvents(|st.rows|, w.initial, OpeningMove(w.wallet, w.initial)));
    }
  }

  // ---------------------------------------------------------------- all of them, and serial execution

  /** A write computed from the present wallet row is what its transaction would have done alone. */
  lemma ApplyIsSerial(st: Store, w: Write)
    requires WriteOk(st, w) && Applicable(st, w) && Admits(st, w)
    ensures Execute(st, w) == Apply(st, w)
  {
    if MoveOf(w).Some? {
      match w {
        case Insert(row, Some(mv)) =>
          assert MoveOk(st, row.core, mv);
          assert row.(core := row.core.(result := Some(mv.change.after))) == row;
        case Settle(id, status, failure, ref, Some(mv)) => assert MoveOk(st, st.rows[id].core, mv);
      }
    }
  }

  lemma ApplyKeepsStore(st: Store, w: Write)
    requires StoreOk(st) && WriteOk(st, w) && Admits(st, w)
    ensures Applicable(st, w) && StoreOk(Apply(st, w)) && Execute(st, w) == Apply(st, w)
  {
    ApplyKeepsRows(st, w);
    ApplyKeepsWallets(st, w);
    ApplyKeepsWalletsExist(st, w);
    ApplyKeepsKeys(st, w);
    ApplyKeepsReversals(st, w);
    ApplyKeepsEntries(st, w);
    ApplyKeepsOneEntryEach(st, w);
    ApplyKeepsBooks(st, w);
    ApplyKeepsEvents(st, w);
    ApplyIsSerial(st, w);
  }
}
