/** The invariant that every reachable state satisfies, with no assumption on how calls interleave. */
module Invariants {
  import opened Results
  import opened MoneyValue
  import opened WalletAggregate
  import opened Transactions
  import opened Tables
  import opened Machine

  // ---------------------------------------------------------------- transaction rows

  ghost predicate ReferenceExists(rows: seq<Row>, c: Core) {
    exists r :: 0 <= r < |rows| && HasExternal(rows[r].core, c.req.provider, c.req.reference)
  }

  /** Row r is what a reversal with core c refers to, with the same amount and a kind that it may reverse. */
  ghost predicate RefFits(rows: seq<Row>, c: Core, r: nat) {
    && r < |rows|
    && HasExternal(rows[r].core, c.req.provider, c.req.reference)
    && rows[r].core.amount == c.amount
    && ReversalDirection(c.kind, rows[r].core.kind).Some?
  }

  /** A transaction as the service builds it in memory. */
  ghost predicate TxOk(c: Core) {
    CoreOk(c) && c.result.None?
  }

  ghost predicate ResultOk(c: Core) {
    c.result.Some? ==> Presentable(c.result.value)
  }

  ghost predicate OpeningOk(row: Row) {
    && row == OpeningRow(row.core.req.wallet, row.core.req.player, row.core.amount)
    && Presentable(row.core.amount) && row.core.amount.amount > 0 && row.core.req.wallet != ""
  }

  /** What the status of a row says about its other columns. */
  ghost predicate StateOk(rows: seq<Row>, row: Row) {
    && (row.state.status == PENDING ==> TxOk(row.core) && row.state.ref.None?)
    && (row.state.status == PENDING_REFERENCE ==>
          TxOk(row.core) && Reversal(row.core.kind) && row.state.ref.None? && ReferenceExists(rows, row.core))
    && (row.state.status == PROCESSED && Reversal(row.core.kind) ==> row.state.ref.Some?)
    && (row.state.ref.Some? ==> Reversal(row.core.kind) && RefFits(rows, row.core, row.state.ref.value))
  }

  ghost predicate RowOk(rows: seq<Row>, row: Row) {
    && (if row.core.kind == OPENING then OpeningOk(row) else CoreOk(row.core) && ResultOk(row.core))
    && StateOk(rows, row)
  }

  ghost predicate RowsOk(rows: seq<Row>) {
    forall i :: 0 <= i < |rows| ==> RowOk(rows, rows[i])
  }

  ghost predicate WalletsExist(st: Store) {
    forall i :: 0 <= i < |st.rows| ==> st.rows[i].core.req.wallet in st.wallets
  }

  predicate SameKey(c: Core, d: Core) {
    c.key != "" && c.req.provider == d.req.provider && c.key == d.key
  }

  ghost predicate WalletsOk(wallets: map<string, WalletRow>) {
    forall x :: x in wallets ==> WalletRowOk(wallets[x])
  }

  ghost predicate KeysUnique(rows: seq<Row>) {
    forall i, j | 0 <= i < |rows| && 0 <= j < |rows| && SameKey(rows[i].core, rows[j].core) :: i == j
  }

  ghost predicate ReversalsUnique(rows: seq<Row>) {
    forall i, j, r :: 0 <= i < |rows| && 0 <= j < |rows| && Reverses(rows[i], r) && Reverses(rows[j], r) ==> i == j
  }

  // ---------------------------------------------------------------- ledger and outbox

  /** The direction in which a processed row moves its wallet. */
  function RowDirection(rows: seq<Row>, row: Row): Option<Direction> {
    match row.core.kind
    case OPENING => Some(CREDIT)
    case BET => Some(DEBIT)
    case WIN => Some(CREDIT)
    case LOSS => None
    case _ =>
      if row.state.ref.Some? && row.state.ref.value < |rows| then
        ReversalDirection(row.core.kind, rows[row.state.ref.value].core.kind)
      else None
  }

  ghost predicate EntryOk(rows: seq<Row>, e: Entry) {
    && e.tx < |rows|
    && e.wallet == rows[e.tx].core.req.wallet
    && e.amount == rows[e.tx].core.amount
    && RowDirection(rows, rows[e.tx]) == Some(e.dir)
    && Terminal(rows[e.tx].state.status)
  }

  ghost predicate EntriesOk(st: Store) {
    forall k :: 0 <= k < |st.ledger| ==> EntryOk(st.rows, st.ledger[k])
  }

  /** No transaction has two ledger entries. */
  ghost predicate OneEntryEach(ledger: seq<Entry>) {
    forall i, j :: 0 <= i < j < |ledger| ==> ledger[i].tx != ledger[j].tx
  }

  /** The ledger entries of one wallet, in commit order. */
  function EntriesOf(ledger: seq<Entry>, wallet: string): seq<Entry> {
    if ledger == [] then []
    else
      var last := ledger[|ledger| - 1];
      EntriesOf(ledger[..|ledger| - 1], wallet) + if last.wallet == wallet then [last] else []
  }

  predicate IsBalanceEvent(ev: Event, wallet: string) {
    ev.BalanceChanged? && ev.wallet == wallet
  }

  /** The WalletBalanceChanged events of one wallet, in commit order. */
  function BalanceEvents(outbox: seq<Event>, wallet: string): (r: seq<Event>)
    ensures forall k :: 0 <= k < |r| ==> IsBalanceEvent(r[k], wallet)
  {
    if outbox == [] then []
    else
      var last := outbox[|outbox| - 1];
      BalanceEvents(outbox[..|outbox| - 1], wallet) + if IsBalanceEvent(last, wallet) then [last] else []
  }

  predicate Opened(rows: seq<Row>, es: seq<Entry>) {
    es != [] && es[0].tx < |rows| && rows[es[0].tx].core.kind == OPENING
  }

  /** Each entry starts from the balance its predecessor left, and is arithmetically exact. */
  ghost predicate Chained(es: seq<Entry>) {
    forall k :: 0 <= k < |es| ==> Linked(es, k)
  }

  ghost predicate Linked(es: seq<Entry>, k: nat)
    requires k < |es|
  {
    EntryMath(es[k]) && es[k].before.amount == (if k == 0 then 0 else es[k - 1].after.amount)
  }

  function ClosingBalance(es: seq<Entry>): int {
    if es == [] then 0 else es[|es| - 1].after.amount as int
  }

  predicate Mirrors(ev: Event, e: Entry, version: nat) {
    ev == BalanceChanged(e.wallet, e.tx, e.dir, e.amount, e.before, e.after, version)
  }

  /** Event k repeats entry k under the next version number; versions start at 1 for an opening, else at 2. */
  ghost predicate Mirrored(evs: seq<Event>, es: seq<Entry>, base: nat) {
    |evs| == |es| && forall k :: 0 <= k < |es| ==> Mirrors(evs[k], es[k], base + k)
  }

  /** Only the first entry of a wallet can belong to an opening. */
  ghost predicate OpeningFirst(rows: seq<Row>, es: seq<Entry>) {
    forall k :: 0 < k < |es| ==> es[k].tx < |rows| && rows[es[k].tx].core.kind != OPENING
  }

  /** The first version number that a wallet's events carry. */
  function FirstVersion(rows: seq<Row>, es: seq<Entry>): nat {
    if Opened(rows, es) then 1 else 2
  }

  /** A wallet row, its ledger entries and its balance events tell the same story. */
  ghost predicate Book(rows: seq<Row>, w: WalletRow, es: seq<Entry>, evs: seq<Event>) {
    && Chained(es)
    && w.balance.amount as int == ClosingBalance(es)
    && OpeningFirst(rows, es)
    && w.version == FirstVersion(rows, es) + |es| - 1
    && Mirrored(evs, es, FirstVersion(rows, es))
  }

  ghost predicate BookOk(st: Store, wallet: string) {
    var es, evs := EntriesOf(st.ledger, wallet), BalanceEvents(st.outbox, wallet);
    if wallet in st.wallets then Book(st.rows, st.wallets[wallet], es, evs) else es == [] && evs == []
  }

  ghost predicate BooksOk(st: Store) {
    forall wallet :: BookOk(st, wallet)
  }

  function EventMonies(ev: Event): seq<Money> {
    match ev
    case TransactionProcessed(_, m) => [m]
    case TransactionRejected(_, m, _) => [m]
    case TransactionParked(_) => []
    case BalanceChanged(_, _, _, m, before, after, _) => [m, before, after]
  }

  ghost predicate EventOk(ev: Event) {
    forall k :: 0 <= k < |EventMonies(ev)| ==> Presentable(EventMonies(ev)[k])
  }

  ghost predicate EventsOk(outbox: seq<Event>) {
    forall k :: 0 <= k < |outbox| ==> EventOk(outbox[k])
  }

  // ---------------------------------------------------------------- buffered writes

  /** The balance change was computed from the wallet row as it is now. */
  ghost predicate MoveOk(st: Store, c: Core, mv: Move) {
    && mv.wallet == c.req.wallet
    && mv.wallet in st.wallets
    && mv.amount == c.amount
    && Change(st.wallets[mv.wallet], mv.dir, mv.amount) == Success(mv.change)
  }

  /** Direction and reference fit the kind of the transaction. */
  ghost predicate MovementOk(rows: seq<Row>, c: Core, dir: Direction, ref: Option<nat>) {
    match c.kind
    case BET => dir == DEBIT && ref.None?
    case WIN => dir == CREDIT && ref.None?
    case REFUND =>
      ref.Some? && RefFits(rows, c, ref.value) && ReversalDirection(c.kind, rows[ref.value].core.kind) == Some(dir)
    case ROLLBACK =>
      ref.Some? && RefFits(rows, c, ref.value) && ReversalDirection(c.kind, rows[ref.value].core.kind) == Some(dir)
    case _ => false
  }

  /** A row inserted without a balance change. */
  ghost predicate PlainInsertOk(rows: seq<Row>, row: Row) {
    && CoreOk(row.core) && ResultOk(row.core)
    && row.state.ref.None? && row.state.attempts == 0
    && match row.state.status
       case PENDING => row.core.result.None?
       case PENDING_REFERENCE => row.core.result.None? && Reversal(row.core.kind) && ReferenceExists(rows, row.core)
       case PROCESSED => row.core.kind == LOSS
       case REJECTED => true
       case FAILED => false
  }

  ghost predicate MoveInsertOk(st: Store, row: Row, mv: Move) {
    && CoreOk(row.core)
    && row.state.status == PROCESSED && row.state.attempts == 0
    && row.core.result == Some(mv.change.after)
    && MoveOk(st, row.core, mv)
    && MovementOk(st.rows, row.core, mv.dir, row.state.ref)
  }

  /** A row that some process outside this call may still settle, or has settled. */
  ghost predicate Settleable(row: Row) {
    && TxOk(row.core)
    && (row.state.status == PENDING || (Reversal(row.core.kind) && row.state.status != PENDING))
  }

  ghost predicate PlainSettleOk(rows: seq<Row>, id: nat, status: Status, ref: Option<nat>) {
    && id < |rows|
    && Settleable(rows[id])
    && ref.None?
    && (status == PROCESSED ==> rows[id].core.kind == LOSS && rows[id].state.status == PENDING)
    && Terminal(status)
  }

  ghost predicate MoveSettleOk(st: Store, id: nat, status: Status, ref: Option<nat>, mv: Move) {
    && id < |st.rows|
    && TxOk(st.rows[id].core)
    && st.rows[id].state.status == (if Reversal(st.rows[id].core.kind) then PENDING_REFERENCE else PENDING)
    && status == PROCESSED
    && MoveOk(st, st.rows[id].core, mv)
    && MovementOk(st.rows, st.rows[id].core, mv.dir, ref)
  }

  ghost predicate WriteOk(st: Store, w: Write) {
    match w
    case Insert(row, None) => PlainInsertOk(st.rows, row)
    case Insert(row, Some(mv)) => MoveInsertOk(st, row, mv)
    case Settle(id, status, _, ref, None) => PlainSettleOk(st.rows, id, status, ref)
    case Settle(id, status, _, ref, Some(mv)) => MoveSettleOk(st, id, status, ref, mv)
    case Wait(id) => id < |st.rows| && st.rows[id].state.status == PENDING_REFERENCE
    case Open(wallet, player, provider, initial) =>
      !Blank(wallet) && WalletRowOk(WalletRow(player, provider, initial, 1))
  }

  // ---------------------------------------------------------------- program points

  /** The call an in-memory transaction belongs to. */
  ghost predicate Belongs(rows: seq<Row>, call: Call, c: Core, parked: Option<nat>) {
    match parked
    case None => call == Process(c.req, c.key)
    case Some(id) =>
      && call == Resolve(id) && id < |rows| && rows[id].core == c
      && rows[id].state.status == PENDING_REFERENCE && Reversal(c.kind)
  }

  ghost predicate JobOk(rows: seq<Row>, call: Call, job: Job) {
    && TxOk(job.core)
    && Belongs(rows, call, job.core, job.parked)
    && MovementOk(rows, job.core, job.dir, job.ref)
  }

  /** The read was made at some earlier time: only the columns that never change are known to persist. */
  ghost predicate Seen(rows: seq<Row>, id: nat, row: Row) {
    id < |rows| && rows[id].core == row.core
  }

  ghost predicate WriteBelongs(rows: seq<Row>, call: Call, w: Write, after: After) {
    match w
    case Insert(row, move) =>
      && call == Process(row.core.req, row.core.key)
      && (after == Return || after.ReturnError?)
      && (move.Some? ==> after == Return)
    case Settle(id, _, _, _, move) =>
      && call == Resolve(id) && (after == Return || after.Unclaimed?)
      && (after == Return ==> id < |rows| && rows[id].state.status == PENDING_REFERENCE)
      && (move.Some? ==> after == Return)
      && id < |rows| && Reversal(rows[id].core.kind) && rows[id].state.status != PENDING
    case Wait(id) => call == Resolve(id) && (after == Return || after == RejectNext)
    case Open(_, player, provider, initial) => call == Create(player, provider, initial) && after == Return
  }

  /** The row holds the request and the outcome that was reported for it. */
  ghost predicate Records(row: Row, req: Request, reply: Reply)
    requires reply.Answer?
  {
    && row.core.req == req && reply.balance.Some? && row.core.result == reply.balance
    && row.state.status == reply.status == PROCESSED
  }

  ghost predicate ReplyOk(rows: seq<Row>, call: Call, reply: Reply) {
    reply.Answer? ==>
      && reply.id < |rows|
      && match call
         case Process(req, key) =>
           && HasKey(rows[reply.id].core, req.provider, key)
           && (!reply.replay ==> rows[reply.id].core.req == req)
           && (!reply.replay && reply.status == PROCESSED && rows[reply.id].core.kind != LOSS ==>
                 Records(rows[reply.id], req, reply))
         case Resolve(id) => reply.id == id
         case Create(_, _, _) => false
  }

  ghost predicate ReportOk(rows: seq<Row>, call: Call, id: nat, status: Status) {
    && id < |rows|
    && match call
       case Process(req, key) =>
         && HasKey(rows[id].core, req.provider, key) && rows[id].core.req == req
         && (status == PROCESSED ==> rows[id].core.kind == LOSS)
       case Resolve(i) => i == id && Terminal(rows[id].state.status)
       case Create(_, _, _) => false
  }

  ghost predicate PcOk(st: Store, call: Call, pc: Pc) {
    match pc
    case FindByKey => call.Process?
    case CheckExternal => call.Process?
    case FindDuplicate => call.Process?
    case FindReference(core, parked) =>
      TxOk(core) && Belongs(st.rows, call, core, parked) && (core.kind == WIN || Reversal(core.kind))
    case CheckReversed(core, parked, ref, refRow) =>
      && TxOk(core) && Belongs(st.rows, call, core, parked) && Reversal(core.kind)
      && Seen(st.rows, ref, refRow) && HasExternal(refRow.core, core.req.provider, core.req.reference)
    case ReadLoss(core) => TxOk(core) && Belongs(st.rows, call, core, None) && core.kind == LOSS
    case LockWallet(job) => JobOk(st.rows, call, job)
    case Update(job, read, change) =>
      && JobOk(st.rows, call, job)
      && job.core.req.wallet in st.wallets
      && st.wallets[job.core.req.wallet] == read
      && Change(read, job.dir, job.core.amount) == Success(change)
    case ReadRejected(core, _, _) => TxOk(core) && Belongs(st.rows, call, core, None)
    case Commit(w, after) => WriteOk(st, w) && WriteBelongs(st.rows, call, w, after)
    case ReplayBalance(id, row) =>
      call.Process? && Seen(st.rows, id, row) && HasKey(row.core, call.req.provider, call.key)
    case ReportBalance(id, status, _, _) => ReportOk(st.rows, call, id, status)
    case FindParked => call.Resolve?
    case Claim(tx) => call.Resolve? && Seen(st.rows, call.id, tx) && TxOk(tx.core) && Reversal(tx.core.kind)
                      && tx.state.status == PENDING_REFERENCE && st.rows[call.id].state.status != PENDING
    case FindWallet => call.Create?
    case Done(reply) => ReplyOk(st.rows, call, reply)
  }

  // ---------------------------------------------------------------- the system

  ghost predicate ActorsOk(s: Sys) {
    forall a :: a in s.actors ==> PcOk(s.store, s.actors[a].call, s.actors[a].pc)
  }

  ghost predicate WalletLocksExclusive(s: Sys) {
    forall a, b :: a in s.actors && b in s.actors && a != b && HeldWallet(s.actors[a].pc).Some? ==>
      HeldWallet(s.actors[a].pc) != HeldWallet(s.actors[b].pc)
  }

  ghost predicate RowLocksExclusive(s: Sys) {
    forall a, b :: a in s.actors && b in s.actors && a != b && HeldRow(s.actors[a].pc).Some? ==>
      HeldRow(s.actors[a].pc) != HeldRow(s.actors[b].pc)
  }

  ghost predicate StoreOk(st: Store) {
    && RowsOk(st.rows) && WalletsOk(st.wallets) && WalletsExist(st)
    && KeysUnique(st.rows) && ReversalsUnique(st.rows)
    && EntriesOk(st) && OneEntryEach(st.ledger)
    && BooksOk(st) && EventsOk(st.outbox)
  }

  ghost predicate InstancesOk(s: Sys) {
    ActorsOk(s) && WalletLocksExclusive(s) && RowLocksExclusive(s)
  }

  ghost predicate Inv(s: Sys) {
    StoreOk(s.store) && InstancesOk(s) && s.store == Serial(s.log)
  }
}
