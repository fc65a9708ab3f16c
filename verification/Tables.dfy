/**
 The database: four tables, the writes that transactions commit, and the constraints that guard them.

 A row's identifier is its position in commit order. Identifiers in the database are random UUIDs that
 are only ever compared, so this is a renaming.
 */
module Tables {
  import opened Results
  import opened MoneyValue
  import opened WalletAggregate
  import opened Transactions

  /** Outbox events; identity fields that are copies of columns of row `tx` are not repeated. */
  datatype Event =
    | TransactionProcessed(tx: nat, money: Money)
    | TransactionRejected(tx: nat, money: Money, failure: FailureCode)
    | TransactionParked(tx: nat)
    | BalanceChanged(wallet: string, tx: nat, dir: Direction, money: Money, before: Money, after: Money, version: nat)

  datatype Store = Store(wallets: map<string, WalletRow>, rows: seq<Row>, ledger: seq<Entry>, outbox: seq<Event>)

  const EMPTY: Store := Store(map[], [], [], [])

  /** A buffered balance change: the wallet, the movement, and what was computed from the locked row. */
  datatype Move = Move(wallet: string, dir: Direction, amount: Money, change: BalanceChange)

  /** What one database transaction writes. */
  datatype Write =
    | Insert(row: Row, move: Option<Move>)
    | Settle(id: nat, status: Status, failure: FailureCode, ref: Option<nat>, move: Option<Move>)
    | Wait(id: nat)
    | Open(wallet: string, player: string, provider: string, initial: Money)

  // ---------------------------------------------------------------- queries

  predicate HasExternal(c: Core, provider: string, externalId: string) {
    provider != "" && externalId != "" && c.req.provider == provider && c.req.externalId == externalId
  }

  predicate HasKey(c: Core, provider: string, key: string) {
    provider != "" && key != "" && c.req.provider == provider && c.key == key
  }

  /** Some row of the given key at or after position i (FindByIdempotencyKey). */
  function FindKeyFrom(rows: seq<Row>, provider: string, key: string, i: nat): (r: Option<nat>)
    requires i <= |rows|
    ensures r.Some? ==> i <= r.value < |rows| && HasKey(rows[r.value].core, provider, key)
    ensures r.None? ==> forall j :: i <= j < |rows| ==> !HasKey(rows[j].core, provider, key)
    decreases |rows| - i
  {
    if i == |rows| then None
    else if HasKey(rows[i].core, provider, key) then Some(i)
    else FindKeyFrom(rows, provider, key, i + 1)
  }

  function FindKey(rows: seq<Row>, provider: string, key: string): (r: Option<nat>)
    ensures r.Some? ==> r.value < |rows| && HasKey(rows[r.value].core, provider, key)
    ensures r.None? ==> forall j :: 0 <= j < |rows| ==> !HasKey(rows[j].core, provider, key)
  {
    FindKeyFrom(rows, provider, key, 0)
  }

  function FindExternalFrom(rows: seq<Row>, provider: string, externalId: string, i: nat): (r: Option<nat>)
    requires i <= |rows|
    ensures r.Some? ==> i <= r.value < |rows| && HasExternal(rows[r.value].core, provider, externalId)
    ensures r.None? ==> forall j :: i <= j < |rows| ==> !HasExternal(rows[j].core, provider, externalId)
    decreases |rows| - i
  {
    if i == |rows| then None
    else if HasExternal(rows[i].core, provider, externalId) then Some(i)
    else FindExternalFrom(rows, provider, externalId, i + 1)
  }

  /** FindByProviderAndExternalID; when several rows match, `pick` says which one the database returns. */
  function FindExternal(rows: seq<Row>, provider: string, externalId: string, pick: nat): (r: Option<nat>)
    ensures r.Some? ==> r.value < |rows| && HasExternal(rows[r.value].core, provider, externalId)
    ensures r.None? ==> forall j :: 0 <= j < |rows| ==> !HasExternal(rows[j].core, provider, externalId)
  {
    if pick < |rows| && HasExternal(rows[pick].core, provider, externalId) then Some(pick)
    else FindExternalFrom(rows, provider, externalId, 0)
  }

  /** ExternalTransactionExists: the pair is stored under another key. */
  predicate ExternalUnderOtherKey(rows: seq<Row>, provider: string, externalId: string, key: string) {
    exists i :: 0 <= i < |rows| && HasExternal(rows[i].core, provider, externalId) && rows[i].core.key != key
  }

  /** Row r counts for the index of successful reversals under reference `ref`. */
  predicate Reverses(r: Row, ref: nat) {
    Reversal(r.core.kind) && r.state.status == PROCESSED && r.state.ref == Some(ref)
  }

  predicate HasSuccessfulReversal(rows: seq<Row>, ref: nat) {
    exists i :: 0 <= i < |rows| && Reverses(rows[i], ref)
  }

  // ---------------------------------------------------------------- constraints

  /** Foreign key and unique indexes for a new row. */
  predicate InsertAllowed(st: Store, row: Row) {
    && row.core.req.wallet in st.wallets
    && (forall i :: 0 <= i < |st.rows| ==> !HasKey(st.rows[i].core, row.core.req.provider, row.core.key))
    && (row.state.ref.Some? && Reverses(row, row.state.ref.value) ==>
         !HasSuccessfulReversal(st.rows, row.state.ref.value))
  }

  /** The row that Settle leaves behind: UpdateStatusTx, then SetInternalReferenceTx if a reference is given. */
  function Settled(row: Row, status: Status, failure: FailureCode, ref: Option<nat>): Row {
    row.(state := State(status, failure, if ref.Some? then ref else row.state.ref, row.state.attempts))
  }

  /** Whether the unique indexes and foreign keys let a write commit. */
  predicate Admits(st: Store, w: Write) {
    match w
    case Insert(row, _) => InsertAllowed(st, row)
    case Settle(id, status, _, ref, _) =>
      id < |st.rows| && (status == PROCESSED && ref.Some? ==> !HasSuccessfulReversal(st.rows, ref.value))
    case Wait(id) => id < |st.rows|
    case Open(wallet, player, provider, initial) =>
      && wallet !in st.wallets
      && (forall x :: x in st.wallets ==>
            st.wallets[x].player != player || st.wallets[x].provider != provider ||
            st.wallets[x].balance.currency != initial.currency)
  }

  // ---------------------------------------------------------------- effects

  /** buildTransactionEvents. */
  function MoveEvents(tx: nat, money: Money, mv: Move): seq<Event> {
    [TransactionProcessed(tx, money)] +
    if mv.amount.amount == 0 then []
    else [BalanceChanged(mv.wallet, tx, mv.dir, mv.amount, mv.change.before, mv.change.after, mv.change.version)]
  }

  /** The event of a row that reaches a status without moving money. */
  function StatusEvents(tx: nat, row: Row): seq<Event> {
    match row.state.status
    case PROCESSED => [TransactionProcessed(tx, row.core.amount)]
    case REJECTED => [TransactionRejected(tx, row.core.amount, row.state.failure)]
    case PENDING_REFERENCE => [TransactionParked(tx)]
    case _ => []
  }

  function MoveEntry(tx: nat, mv: Move): Entry {
    Entry(mv.wallet, tx, mv.dir, mv.amount, mv.change.before, mv.change.after)
  }

  /** UpdateBalanceTx, the ledger insert and the event inserts for row `tx`. */
  function Post(st: Store, tx: nat, money: Money, mv: Move): Store
    requires mv.wallet in st.wallets
  {
    var w := st.wallets[mv.wallet];
    st.(wallets := st.wallets[mv.wallet := w.(balance := mv.change.after, version := w.version + 1)],
        ledger := st.ledger + [MoveEntry(tx, mv)],
        outbox := st.outbox + MoveEvents(tx, money, mv))
  }

  /** The wallet of a buffered balance change exists, and an updated row exists. */
  predicate Applicable(st: Store, w: Write) {
    match w
    case Insert(_, move) => move.Some? ==> move.value.wallet in st.wallets
    case Settle(id, _, _, _, move) => id < |st.rows| && (move.Some? ==> move.value.wallet in st.wallets)
    case Wait(id) => id < |st.rows|
    case Open(_, _, _, _) => true
  }

  const NO_REQUEST: Request := Request("", "", "", "", "", "", "", "", "", "")

  function OpeningRow(wallet: string, player: string, initial: Money): Row {
    Row(Core(NO_REQUEST.(wallet := wallet, player := player), "", OPENING, initial, None),
        State(PROCESSED, NO_FAILURE, None, 0))
  }

  function OpeningMove(wallet: string, initial: Money): Move {
    Move(wallet, CREDIT, initial, BalanceChange(Money(0, initial.currency), initial, 1))
  }

  /** Insert a row, and post its balance change if it has one. */
  function ApplyInsert(st: Store, row: Row, move: Option<Move>): Store
    requires move.Some? ==> move.value.wallet in st.wallets
  {
    var tx := |st.rows|;
    var inserted := st.(rows := st.rows + [row]);
    if move.Some? then Post(inserted, tx, row.core.amount, move.value)
    else inserted.(outbox := inserted.outbox + StatusEvents(tx, row))
  }

  function ApplySettle(st: Store, id: nat, row: Row, move: Option<Move>): Store
    requires id < |st.rows|
    requires move.Some? ==> move.value.wallet in st.wallets
  {
    var updated := st.(rows := st.rows[id := row]);
    if move.Some? then Post(updated, id, row.core.amount, move.value)
    else updated.(outbox := updated.outbox + StatusEvents(id, row))
  }

  /** CreateWallet's transaction: a zero wallet has no opening row, entry or event. */
  function ApplyOpen(st: Store, wallet: string, player: string, provider: string, initial: Money): Store {
    var tx := |st.rows|;
    var created := st.(wallets := st.wallets[wallet := WalletRow(player, provider, initial, 1)]);
    if initial.amount == 0 then created
    else
      var mv := OpeningMove(wallet, initial);
      created.(rows := st.rows + [OpeningRow(wallet, player, initial)],
               ledger := st.ledger + [MoveEntry(tx, mv)],
               outbox := st.outbox + MoveEvents(tx, initial, mv))
  }

  function Apply(st: Store, w: Write): Store
    requires Applicable(st, w)
  {
    match w
    case Insert(row, move) => ApplyInsert(st, row, move)
    case Settle(id, status, failure, ref, move) =>
      ApplySettle(st, id, Settled(st.rows[id], status, failure, ref), move)
    case Wait(id) =>
      var row := st.rows[id];
      st.(rows := st.rows[id := row.(state := row.state.(attempts := row.state.attempts + 1))])
    case Open(wallet, player, provider, initial) => ApplyOpen(st, wallet, player, provider, initial)
  }

  // ---------------------------------------------------------------- serial execution

  /**
   A write as its transaction would build it if it ran alone on st: the balance change, and the
   result balance stored with a new row, are computed afresh.
   */
  function Afresh(st: Store, w: Write): Option<Write> {
    if w.Insert? && w.move.Some? then
      var mv := Recompute(st, w.move.value);
      if mv.None? then None
      else Some(Insert(w.row.(core := w.row.core.(result := Some(mv.value.change.after))), mv))
    else if w.Settle? && w.move.Some? then
      var mv := Recompute(st, w.move.value);
      if mv.None? then None else Some(Settle(w.id, w.status, w.failure, w.ref, mv))
    else Some(w)
  }

  function Recompute(st: Store, mv: Move): Option<Move> {
    if mv.wallet !in st.wallets then None
    else
      var change := Change(st.wallets[mv.wallet], mv.dir, mv.amount);
      if change.Success? then Some(mv.(change := change.value)) else None
  }

  /** One committed transaction, executed alone. A transaction that fails leaves no trace. */
  function Execute(st: Store, w: Write): Store {
    var alone := Afresh(st, w);
    if alone.Some? && Applicable(st, alone.value) && Admits(st, alone.value) then Apply(st, alone.value) else st
  }

  /** The committed transactions executed one at a time, in commit order, from an empty database. */
  function Serial(log: seq<Write>): Store {
    if log == [] then EMPTY else Execute(Serial(log[..|log| - 1]), log[|log| - 1])
  }
}
