/**
 What each call does when nothing comes in between, written out over columns, literal codes and amounts: one table per
 call. The tables use none of the procedures' own decisions; `TableProofs` shows that the procedures obey them.
 */
module DecisionTables {
  import opened Results
  import opened MoneyValue
  import opened WalletAggregate
  import opened Transactions
  import opened Tables
  import opened Machine

  // ---------------------------------------------------------------- vocabulary

  predicate Unchanged(st: Store, out: Store, reply: Reply, error: ServiceError) {
    out == st && reply == Refused(error)
  }

  /** The balance of a wallet in cents. */
  function Held(st: Store, wallet: string): int
    requires wallet in st.wallets
  {
    st.wallets[wallet].balance.amount as int
  }

  /** Some PROCESSED REFUND or ROLLBACK refers to row r. */
  predicate Taken(rows: seq<Row>, r: nat) {
    exists i :: 0 <= i < |rows| && rows[i].core.kind in {REFUND, ROLLBACK}
                && rows[i].state.status == PROCESSED && rows[i].state.ref == Some(r)
  }

  /** The row has that provider and external identifier. */
  predicate Matches(row: Row, provider: string, externalId: string) {
    row.core.req.provider == provider && row.core.req.externalId == externalId
  }

  /** The first of these columns in which a transaction differs from its reference names the failure. */
  predicate Mismatch(c: Core, ref: Core, code: FailureCode) {
    || (code == PLAYER_MISMATCH && c.req.player != ref.req.player)
    || (code == WALLET_MISMATCH && c.req.player == ref.req.player && c.req.wallet != ref.req.wallet)
    || (code == CURRENCY_MISMATCH && c.req.player == ref.req.player && c.req.wallet == ref.req.wallet
        && c.amount.currency != ref.amount.currency)
    || (code == ROUND_MISMATCH && c.req.player == ref.req.player && c.req.wallet == ref.req.wallet
        && c.amount.currency == ref.amount.currency && c.req.round != ref.req.round)
  }

  predicate Agrees(c: Core, ref: Core) {
    && c.req.player == ref.req.player && c.req.wallet == ref.req.wallet
    && c.amount.currency == ref.amount.currency && c.req.round == ref.req.round
  }

  // ---------------------------------------------------------------- what is written

  /** A new REJECTED row and its event; no money moves. */
  predicate StoresRejected(st: Store, out: Store, c: Core, code: FailureCode, result: Option<Money>) {
    && out.wallets == st.wallets && out.ledger == st.ledger
    && out.rows == st.rows + [Row(Core(c.req, c.key, c.kind, c.amount, result), State(REJECTED, code, None, 0))]
    && out.outbox == st.outbox + [TransactionRejected(|st.rows|, c.amount, code)]
  }

  /** Rejected for a reason of its own: the answer carries the balance. Without the wallet no row can be stored. */
  predicate Rejects(st: Store, out: Store, reply: Reply, c: Core, code: FailureCode) {
    if c.req.wallet !in st.wallets then Unchanged(st, out, reply, DatabaseFailure)
    else
      && StoresRejected(st, out, c, code, None)
      && reply == Answer(|st.rows|, REJECTED, Some(st.wallets[c.req.wallet].balance), false)
  }

  /** Rejected because the wallet refused: the call reports an error. */
  predicate WalletRejects(st: Store, out: Store, reply: Reply, c: Core, code: FailureCode,
    result: Option<Money>, error: ServiceError)
  {
    StoresRejected(st, out, c, code, result) && reply == Refused(error)
  }

  predicate Parks(st: Store, out: Store, reply: Reply, c: Core) {
    if c.req.wallet !in st.wallets then Unchanged(st, out, reply, DatabaseFailure)
    else
      && out.wallets == st.wallets && out.ledger == st.ledger
      && out.rows == st.rows + [Row(c, State(PENDING_REFERENCE, NO_FAILURE, None, 0))]
      && out.outbox == st.outbox + [TransactionParked(|st.rows|)]
      && reply == Answer(|st.rows|, PENDING_REFERENCE, None, false)
  }

  /** The balance change of row tx: wallet, ledger entry and two events. */
  predicate Books(st: Store, out: Store, tx: nat, c: Core, dir: Direction, after: Money)
    requires c.req.wallet in st.wallets
  {
    var w := st.wallets[c.req.wallet];
    && after.currency == "BRL"
    && after.amount as int == w.balance.amount as int + (if dir == CREDIT then 1 else -1) * c.amount.amount as int
    && out.wallets == st.wallets[c.req.wallet := WalletRow(w.player, w.provider, after, w.version + 1)]
    && out.ledger == st.ledger + [Entry(c.req.wallet, tx, dir, c.amount, w.balance, after)]
    && out.outbox == st.outbox + [
                       TransactionProcessed(tx, c.amount),
                       BalanceChanged(c.req.wallet, tx, dir, c.amount, w.balance, after, w.version + 1)]
  }

  /** A new PROCESSED row with its balance change, unless the reversal index refuses it. */
  predicate Moves(st: Store, out: Store, reply: Reply, c: Core, dir: Direction, ref: Option<nat>)
    requires c.req.wallet in st.wallets
  {
    if ref.Some? && Taken(st.rows, ref.value) then Unchanged(st, out, reply, DoubleReversal)
    else
      && reply.Answer? && reply.balance.Some?
      && reply == Answer(|st.rows|, PROCESSED, Some(reply.balance.value), false)
      && Books(st, out, |st.rows|, c, dir, reply.balance.value)
      && out.rows == st.rows + [Row(Core(c.req, c.key, c.kind, c.amount, reply.balance),
                                    State(PROCESSED, NO_FAILURE, ref, 0))]
  }

  predicate Debits(st: Store, out: Store, reply: Reply, c: Core, ref: Option<nat>, code: FailureCode,
    error: ServiceError)
    requires c.req.wallet in st.wallets
  {
    if Held(st, c.req.wallet) < c.amount.amount as int then
      WalletRejects(st, out, reply, c, code, Some(st.wallets[c.req.wallet].balance), error)
    else Moves(st, out, reply, c, DEBIT, ref)
  }

  predicate Credits(st: Store, out: Store, reply: Reply, c: Core, ref: Option<nat>, error: ServiceError)
    requires c.req.wallet in st.wallets
  {
    if Held(st, c.req.wallet) + c.amount.amount as int > 0x7fff_ffff_ffff_ffff then
      WalletRejects(st, out, reply, c, WALLET_ERROR, None, error)
    else Moves(st, out, reply, c, CREDIT, ref)
  }

  // ---------------------------------------------------------------- new transactions

  predicate BetTable(st: Store, out: Store, reply: Reply, c: Core) {
    if c.req.wallet !in st.wallets then Unchanged(st, out, reply, InsufficientFunds)
    else Debits(st, out, reply, c, None, INSUFFICIENT_BALANCE, InsufficientFunds)
  }

  predicate PlainWin(st: Store, out: Store, reply: Reply, c: Core) {
    if c.req.wallet !in st.wallets then Unchanged(st, out, reply, InsufficientFunds)
    else Credits(st, out, reply, c, None, InsufficientFunds)
  }

  /** A WIN that refers to row ref. */
  predicate WinAgainst(st: Store, out: Store, reply: Reply, c: Core, ref: Row) {
    if ref.core.kind != BET then Rejects(st, out, reply, c, REFERENCE_NOT_FOUND)
    else if !Agrees(c, ref.core) then
      exists code :: Mismatch(c, ref.core, code) && Rejects(st, out, reply, c, code)
    else PlainWin(st, out, reply, c)
  }

  predicate LossTable(st: Store, out: Store, reply: Reply, c: Core) {
    if c.req.wallet !in st.wallets then Unchanged(st, out, reply, NotFound)
    else
      var balance := Some(st.wallets[c.req.wallet].balance);
      && out.wallets == st.wallets && out.ledger == st.ledger
      && out.rows == st.rows + [Row(Core(c.req, c.key, c.kind, c.amount, balance),
                                    State(PROCESSED, NO_FAILURE, None, 0))]
      && out.outbox == st.outbox + [TransactionProcessed(|st.rows|, c.amount)]
      && reply == Answer(|st.rows|, PROCESSED, balance, false)
  }

  /** A REFUND or ROLLBACK of row r; `blind` says that the query for an earlier reversal fails. */
  predicate ReversalAgainst(st: Store, out: Store, reply: Reply, c: Core, r: nat, blind: bool)
    requires r < |st.rows|
  {
    var ref := st.rows[r];
    if !Agrees(c, ref.core) then
      exists code :: Mismatch(c, ref.core, code) && Rejects(st, out, reply, c, code)
    else if ref.state.status in {PENDING, PENDING_REFERENCE} then Parks(st, out, reply, c)
    else if ref.state.status in {REJECTED, FAILED} then Rejects(st, out, reply, c, REFERENCE_NOT_SUCCESSFUL)
    else if Taken(st.rows, r) && !blind then Rejects(st, out, reply, c, DOUBLE_REVERSAL)
    else if c.amount.amount != ref.core.amount.amount then Rejects(st, out, reply, c, REVERSAL_VALUE_MISMATCH)
    else if c.kind == ROLLBACK && ref.core.kind !in {BET, WIN, REFUND} then
      Rejects(st, out, reply, c, INVALID_REFERENCE_TYPE)
    else if c.req.wallet !in st.wallets then Unchanged(st, out, reply, WalletRefused)
    else if c.kind == REFUND || ref.core.kind == BET then Credits(st, out, reply, c, Some(r), WalletRefused)
    else Debits(st, out, reply, c, Some(r), REVERSAL_INSUFFICIENT_BALANCE, WalletRefused)
  }

  /** A transaction with a reference: a matching row decides, the only one if external identifiers are unique. */
  predicate ReferringTable(st: Store, out: Store, reply: Reply, c: Core, blind: bool) {
    if forall r :: 0 <= r < |st.rows| ==> !Matches(st.rows[r], c.req.provider, c.req.reference) then
      Rejects(st, out, reply, c, REFERENCE_NOT_FOUND)
    else
      exists r :: 0 <= r < |st.rows| && Matches(st.rows[r], c.req.provider, c.req.reference)
                  && if c.kind == WIN then WinAgainst(st, out, reply, c, st.rows[r])
                     else ReversalAgainst(st, out, reply, c, r, blind)
  }

  function KindNamed(name: string): Kind {
    if name == "BET" then BET
    else if name == "WIN" then WIN
    else if name == "LOSS" then LOSS
    else if name == "REFUND" then REFUND
    else ROLLBACK
  }

  predicate KindTable(st: Store, out: Store, reply: Reply, c: Core, blind: bool) {
    if c.kind == BET then BetTable(st, out, reply, c)
    else if c.kind == LOSS then LossTable(st, out, reply, c)
    else if c.req.reference != "" then ReferringTable(st, out, reply, c, blind)
    else if c.kind == WIN then PlainWin(st, out, reply, c)
    else Rejects(st, out, reply, c, MISSING_REFERENCE)
  }

  /** A request whose key and external identifier are new. */
  predicate NewTable(st: Store, out: Store, reply: Reply, req: Request, key: string, blind: bool) {
    if req.kind !in {"BET", "WIN", "LOSS", "REFUND", "ROLLBACK"} then Unchanged(st, out, reply, InvalidTransactionType)
    else
      match Parse(req.amount, req.currency)
      case Failure(e) => Unchanged(st, out, reply, InvalidAmount(e))
      case Success(m) =>
        if req.provider == "" then Unchanged(st, out, reply, InvalidProvider)
        else if req.externalId == "" then Unchanged(st, out, reply, InvalidExternalID)
        else if req.wallet == "" then Unchanged(st, out, reply, InvalidWallet)
        else if req.player == "" then Unchanged(st, out, reply, InvalidPlayer)
        else if req.kind != "LOSS" && m.amount == 0 then Unchanged(st, out, reply, AmountMustBePositive)
        else if req.kind == "LOSS" && m.amount != 0 then Unchanged(st, out, reply, AmountMustBeZero)
        else KindTable(st, out, reply, Core(req, key, KindNamed(req.kind), m, None), blind)
  }

  /** The answer for a request whose key row i has: its recorded balance, or else the wallet's. */
  predicate ReplayTable(st: Store, out: Store, reply: Reply, req: Request, i: nat)
    requires i < |st.rows|
  {
    var row := st.rows[i];
    if row.core.req != req then Unchanged(st, out, reply, PayloadConflict)
    else if row.core.result.Some? then
      out == st && reply == Answer(i, row.state.status, Some(row.core.result.value), true)
    else
      && out == st && row.core.req.wallet in st.wallets
      && reply == Answer(i, row.state.status, Some(st.wallets[row.core.req.wallet].balance), true)
  }

  predicate KeyKnown(st: Store, req: Request, key: string) {
    && req.provider != ""
    && exists i :: 0 <= i < |st.rows| && st.rows[i].core.req.provider == req.provider && st.rows[i].core.key == key
  }

  predicate ExternalKnown(st: Store, req: Request) {
    && req.provider != "" && req.externalId != ""
    && exists i :: 0 <= i < |st.rows| && Matches(st.rows[i], req.provider, req.externalId)
  }

  /** ProcessTransaction under a key. */
  predicate ProcessTable(st: Store, out: Store, reply: Reply, req: Request, key: string, blind: bool) {
    if KeyKnown(st, req, key) then
      forall i :: 0 <= i < |st.rows| && st.rows[i].core.req.provider == req.provider && st.rows[i].core.key == key ==>
        ReplayTable(st, out, reply, req, i)
    else if ExternalKnown(st, req) then Unchanged(st, out, reply, ExternalIDReuse)
    else NewTable(st, out, reply, req, key, blind)
  }

  // ---------------------------------------------------------------- parked rows

  /** The parked row becomes REJECTED, with its event; no money moves. */
  predicate SettlesRejected(st: Store, out: Store, id: nat, code: FailureCode)
    requires id < |st.rows|
  {
    var row := st.rows[id];
    && out.wallets == st.wallets && out.ledger == st.ledger
    && out.rows == st.rows[id := Row(row.core, State(REJECTED, code, row.state.ref, row.state.attempts))]
    && out.outbox == st.outbox + [TransactionRejected(id, row.core.amount, code)]
  }

  predicate RejectsParked(st: Store, out: Store, reply: Reply, id: nat, code: FailureCode)
    requires id < |st.rows|
  {
    && SettlesRejected(st, out, id, code) && st.rows[id].core.req.wallet in st.wallets
    && reply == Answer(id, REJECTED, Some(st.wallets[st.rows[id].core.req.wallet].balance), false)
  }

  predicate MovesParked(st: Store, out: Store, reply: Reply, id: nat, dir: Direction, r: nat)
    requires id < |st.rows| && st.rows[id].core.req.wallet in st.wallets
  {
    var row := st.rows[id];
    if Taken(st.rows, r) then Unchanged(st, out, reply, DatabaseFailure)
    else
      && reply.Answer? && reply.balance.Some?
      && reply == Answer(id, PROCESSED, Some(reply.balance.value), false)
      && Books(st, out, id, row.core, dir, reply.balance.value)
      && out.rows == st.rows[id := Row(row.core, State(PROCESSED, NO_FAILURE, Some(r), row.state.attempts))]
  }

  /** The reference is not settled yet: one more attempt is counted, and nothing else changes. */
  predicate KeepsWaiting(st: Store, out: Store, reply: Reply, id: nat)
    requires id < |st.rows|
  {
    var row := st.rows[id];
    && out.wallets == st.wallets && out.ledger == st.ledger && out.outbox == st.outbox
    && out.rows == st.rows[id := Row(row.core, State(PENDING_REFERENCE, row.state.failure, row.state.ref,
                                                     row.state.attempts + 1))]
    && reply == Answer(id, PENDING_REFERENCE, None, false)
  }

  /** A parked row with attempts left, none of whose possible references is settled. */
  predicate Waits(st: Store, id: nat) {
    && id < |st.rows| && st.rows[id].state.status == PENDING_REFERENCE && st.rows[id].state.attempts < 10
    && forall r :: 0 <= r < |st.rows|
                   && Matches(st.rows[r], st.rows[id].core.req.provider, st.rows[id].core.req.reference) ==>
         st.rows[r].state.status in {PENDING, PENDING_REFERENCE}
  }

  predicate ResolveAgainst(st: Store, out: Store, reply: Reply, id: nat, r: nat, blind: bool)
    requires id < |st.rows| && r < |st.rows| && st.rows[id].core.req.wallet in st.wallets
  {
    var c, ref := st.rows[id].core, st.rows[r];
    if ref.state.status in {PENDING, PENDING_REFERENCE} then KeepsWaiting(st, out, reply, id)
    else if ref.state.status in {REJECTED, FAILED} then RejectsParked(st, out, reply, id, REFERENCE_NOT_SUCCESSFUL)
    else if Taken(st.rows, r) && !blind then RejectsParked(st, out, reply, id, DOUBLE_REVERSAL)
    else if c.amount.amount != ref.core.amount.amount then RejectsParked(st, out, reply, id, REVERSAL_VALUE_MISMATCH)
    else if c.kind == ROLLBACK && ref.core.kind !in {BET, WIN, REFUND} then
      RejectsParked(st, out, reply, id, INVALID_REFERENCE_TYPE)
    else if c.kind == REFUND || ref.core.kind == BET then
      if Held(st, c.req.wallet) + c.amount.amount as int > 0x7fff_ffff_ffff_ffff then
        SettlesRejected(st, out, id, WALLET_ERROR) && reply == Refused(InsufficientFunds)
      else MovesParked(st, out, reply, id, CREDIT, r)
    else if Held(st, c.req.wallet) < c.amount.amount as int then
      SettlesRejected(st, out, id, REVERSAL_INSUFFICIENT_BALANCE) && reply == Refused(InsufficientFunds)
    else MovesParked(st, out, reply, id, DEBIT, r)
  }

  /** ResolvePendingReference: a row that the parked row refers to always exists, and a matching row decides. */
  predicate ResolveTable(st: Store, out: Store, reply: Reply, id: nat, blind: bool) {
    if id >= |st.rows| then Unchanged(st, out, reply, NotFound)
    else
      var row := st.rows[id];
      if row.state.status != PENDING_REFERENCE then out == st && reply == Answer(id, row.state.status, None, false)
      else if row.state.attempts >= 10 then RejectsParked(st, out, reply, id, REFERENCE_NOT_FOUND)
      else
        && row.core.req.wallet in st.wallets
        && exists r :: 0 <= r < |st.rows| && Matches(st.rows[r], row.core.req.provider, row.core.req.reference)
                       && ResolveAgainst(st, out, reply, id, r, blind)
  }

  // ---------------------------------------------------------------- wallets

  predicate WalletRefusedFor(st: Store, out: Store, reply: Reply, error: WalletError) {
    out == st && reply == WalletRefusal(error)
  }

  predicate AllSpace(s: string) {
    forall i :: 0 <= i < |s| ==> Space(s[i])
  }

  /** The new wallet; with money also one OPENING row, one CREDIT entry from zero and two events. */
  predicate Opens(st: Store, out: Store, reply: Reply, player: string, provider: string, initial: Money, id: string) {
    var tx := |st.rows|;
    var req := Request("", "", player, id, "", "", "", "", "", "");
    && reply == Created(id)
    && out.wallets == st.wallets[id := WalletRow(player, provider, initial, 1)]
    && out.rows == (if initial.amount == 0 then st.rows
                    else st.rows + [Row(Core(req, "", OPENING, initial, None), State(PROCESSED, NO_FAILURE, None, 0))])
    && out.ledger == (if initial.amount == 0 then st.ledger
                      else st.ledger + [Entry(id, tx, CREDIT, initial, Money(0, "BRL"), initial)])
    && out.outbox == (if initial.amount == 0 then st.outbox
                      else st.outbox + [TransactionProcessed(tx, initial),
                                        BalanceChanged(id, tx, CREDIT, initial, Money(0, "BRL"), initial, 1)])
  }

  /** CreateWallet under a fresh identifier. */
  predicate CreateTable(st: Store, out: Store, reply: Reply, player: string, provider: string, initial: Money,
    id: string)
  {
    if provider == "" then WalletRefusedFor(st, out, reply, InvalidProviderID)
    else if player == "" then WalletRefusedFor(st, out, reply, InvalidPlayerID)
    else if initial.currency == "" then WalletRefusedFor(st, out, reply, InvalidCurrency)
    else if initial.amount < 0 then WalletRefusedFor(st, out, reply, NegativeBalance)
    else if exists x :: x in st.wallets && st.wallets[x].player == player && st.wallets[x].provider == provider
                        && st.wallets[x].balance.currency == initial.currency then
      WalletRefusedFor(st, out, reply, DuplicateWallet)
    else if AllSpace(player) then WalletRefusedFor(st, out, reply, InvalidPlayerID)
    else if AllSpace(provider) then WalletRefusedFor(st, out, reply, InvalidProviderID)
    else if initial.currency != "BRL" then WalletRefusedFor(st, out, reply, InvalidCurrency)
    else Opens(st, out, reply, player, provider, initial, id)
  }
}
