/**
 The engine as a step system over the store.

 Any number of instances run ProcessTransaction, ResolvePendingReference and CreateWallet. A step is one
 unlocked query, one lock acquisition, the version-tested update, or one commit; everything an instance
 does between two of these touches only its own memory. A crash may happen at any point.
 */
module Machine {
  import opened Results
  import opened MoneyValue
  import opened WalletAggregate
  import opened Transactions
  import opened Tables

  datatype Call =
    | Process(req: Request, key: string)
    | Resolve(id: nat)
    | Create(player: string, provider: string, initial: Money)

  datatype Reply =
    | Answer(id: nat, status: Status, balance: Option<Money>, replay: bool)
    | Created(wallet: string)
    | Refused(error: ServiceError)
    | WalletRefusal(cause: WalletError)

  /** A balance change to make: for a new transaction, or for the parked row `parked`. */
  datatype Job = Job(core: Core, dir: Direction, ref: Option<nat>, parked: Option<nat>)

  /** What follows a commit. */
  datatype After =
    | Return                        // answer with the row that was written
    | ReturnError(error: ServiceError)  // the row records a rejection; the call reports an error
    | Unclaimed(failed: Option<ServiceError>)  // a parked row whose claim was released: report an error, or the row
    | RejectNext                    // the reference is gone: reject in a second transaction

  datatype Pc =
    | FindByKey
    | CheckExternal
    | FindReference(core: Core, parked: Option<nat>)
    | CheckReversed(core: Core, parked: Option<nat>, ref: nat, refRow: Row)
    | ReadLoss(core: Core)
    | LockWallet(job: Job)
    | Update(job: Job, read: WalletRow, change: BalanceChange)
    | ReadRejected(core: Core, failure: FailureCode, error: ServiceError)
    | Commit(write: Write, after: After)
    | FindDuplicate
    | ReplayBalance(id: nat, row: Row)
    | ReportBalance(id: nat, status: Status, wallet: string, strict: bool)
    | FindParked
    | Claim(tx: Row)
    | FindWallet
    | Done(reply: Reply)

  datatype Actor = Actor(call: Call, pc: Pc)

  /**
   The system: the committed store, the instances, the committed writes in order, how often a finished resolution of a
   row left it waiting, and for which pairs of a row and its reference one was stopped by the reversal index.
   */
  datatype Sys = Sys(
    store: Store, actors: map<nat, Actor>, log: seq<Write>,
    waits: multiset<nat>, conflicts: multiset<(nat, nat)>)

  const INIT: Sys := Sys(EMPTY, map[], [], multiset{}, multiset{})

  const MAX_REF_ATTEMPTS: nat := 10

  /**
   What the outside world decides: which of several matching rows a query returns, whether the query for
   an earlier reversal fails (its error is discarded), and the identifier generated for a new wallet.
   */
  datatype Oracle = Oracle(pick: nat, blind: bool, walletId: string)

  // ---------------------------------------------------------------- pure decisions

  function RowOf(core: Core, status: Status, failure: FailureCode, ref: Option<nat>): Row {
    Row(core, State(status, failure, ref, 0))
  }

  /** reject: store the transaction as REJECTED. */
  function Reject(core: Core, failure: FailureCode): Pc {
    Commit(Insert(RowOf(core, REJECTED, failure, None), None), Return)
  }

  /** Refuse a reversal: on the direct path by a rejected row, on the deferred path by settling the claimed row. */
  function Refuse(core: Core, parked: Option<nat>, failure: FailureCode): Pc {
    match parked
    case None => Reject(core, failure)
    case Some(id) => Commit(Settle(id, REJECTED, failure, None, None), Return)
  }

  /** validateReference with mapValidationError: the first field on which the two transactions differ. */
  function ValidateReference(tx: Core, ref: Core): Option<FailureCode> {
    if ref.req.provider != tx.req.provider then Some(PROVIDER_MISMATCH)
    else if ref.req.player != tx.req.player then Some(PLAYER_MISMATCH)
    else if ref.req.wallet != tx.req.wallet then Some(WALLET_MISMATCH)
    else if ref.amount.currency != tx.amount.currency then Some(CURRENCY_MISMATCH)
    else if ref.req.round != tx.req.round then Some(ROUND_MISMATCH)
    else None
  }

  /** The checks of processWin, which also demand that the reference is a bet. */
  function ValidateWin(tx: Core, ref: Core): Option<FailureCode> {
    if ref.kind != BET then Some(REFERENCE_NOT_FOUND)
    else ValidateReference(tx, ref.(req := ref.req.(provider := tx.req.provider)))
  }

  /** validateReversalValue: the error of Compare is discarded, so different currencies compare as equal. */
  predicate ReversalValueMatches(amount: Money, ref: Money) {
    var cmp := Compare(amount, ref);
    cmp.Failure? || cmp.value == 0
  }

  /** The direction of a reversal, or nothing when a ROLLBACK refers to a kind it cannot undo. */
  function ReversalDirection(kind: Kind, refKind: Kind): Option<Direction> {
    if kind == REFUND then Some(CREDIT)
    else if kind == ROLLBACK && refKind == BET then Some(CREDIT)
    else if kind == ROLLBACK && (refKind == WIN || refKind == REFUND) then Some(DEBIT)
    else None
  }

  /** mapWalletError and mapWalletErrorForReversal. */
  function WalletFailure(kind: Kind, e: WalletError): FailureCode {
    if e == InsufficientBalance then
      if Reversal(kind) then REVERSAL_INSUFFICIENT_BALANCE else INSUFFICIENT_BALANCE
    else if e == WalletCurrencyMismatch then CURRENCY_MISMATCH
    else WALLET_ERROR
  }

  /** The error a call reports when the wallet refused. */
  function WalletErrorReply(kind: Kind, e: WalletError): ServiceError {
    if Reversal(kind) then WalletRefused else if e == ConcurrentUpdate then Concurrent else InsufficientFunds
  }

  /** The wallet refused: roll back (releasing all locks) and record the rejection in a new transaction. */
  function OnWalletError(job: Job, e: WalletError): Pc {
    var failure := WalletFailure(job.core.kind, e);
    match job.parked
    case Some(id) => Commit(Settle(id, REJECTED, failure, None, None), Unclaimed(Some(InsufficientFunds)))
    case None =>
      var error := WalletErrorReply(job.core.kind, e);
      if failure != WALLET_ERROR then ReadRejected(job.core, failure, error)
      else Commit(Insert(RowOf(job.core, REJECTED, failure, None), None), ReturnError(error))
  }

  /** After the replay and external-id checks: prepare the transaction and start its own procedure. */
  function Dispatch(req: Request, key: string): Pc {
    match Prepare(req, key)
    case Failure(e) => Done(Refused(e))
    case Success(core) =>
      match core.kind
      case BET => LockWallet(Job(core, DEBIT, None, None))
      case WIN =>
        if req.reference == "" then LockWallet(Job(core, CREDIT, None, None)) else FindReference(core, None)
      case LOSS => ReadLoss(core)
      case _ =>
        if req.reference == "" then Reject(core, MISSING_REFERENCE) else FindReference(core, None)
  }

  /** handleReplay. */
  function Replay(id: nat, row: Row): Pc {
    if row.core.result.Some? then Done(Answer(id, row.state.status, row.core.result, true)) else ReplayBalance(id, row)
  }

  /** The reference of a new transaction has been looked up. */
  function OnReferenceDirect(core: Core, found: Option<nat>, rows: seq<Row>): Pc
    requires found.Some? ==> found.value < |rows|
  {
    if found.None? then Reject(core, REFERENCE_NOT_FOUND)
    else
      var ref := rows[found.value];
      if core.kind == WIN then
        var mismatch := ValidateWin(core, ref.core);
        if mismatch.Some? then Reject(core, mismatch.value) else LockWallet(Job(core, CREDIT, None, None))
      else
        var mismatch := ValidateReference(core, ref.core);
        if mismatch.Some? then Reject(core, mismatch.value)
        else if ref.state.status == PROCESSED then CheckReversed(core, None, found.value, ref)
        else if ref.state.status == PENDING || ref.state.status == PENDING_REFERENCE then
          Commit(Insert(RowOf(core, PENDING_REFERENCE, NO_FAILURE, None), None), Return)
        else Reject(core, REFERENCE_NOT_SUCCESSFUL)
  }

  /** The reference of the claimed row `id` has been looked up. */
  function OnReferenceDeferred(core: Core, id: nat, found: Option<nat>, rows: seq<Row>): Pc
    requires found.Some? ==> found.value < |rows|
  {
    if found.None? then Commit(Wait(id), RejectNext)
    else
      var ref := rows[found.value];
      if ref.state.status == PENDING || ref.state.status == PENDING_REFERENCE then Commit(Wait(id), Return)
      else if ref.state.status == PROCESSED then CheckReversed(core, Some(id), found.value, ref)
      else Refuse(core, Some(id), REFERENCE_NOT_SUCCESSFUL)
  }

  /** The query for an earlier reversal has been answered. */
  function OnReversedChecked(core: Core, parked: Option<nat>, ref: nat, refRow: Row, reversed: bool): Pc {
    if reversed then Refuse(core, parked, DOUBLE_REVERSAL)
    else if !ReversalValueMatches(core.amount, refRow.core.amount) then Refuse(core, parked, REVERSAL_VALUE_MISMATCH)
    else
      var dir := ReversalDirection(core.kind, refRow.core.kind);
      if dir.None? then Refuse(core, parked, INVALID_REFERENCE_TYPE)
      else LockWallet(Job(core, dir.value, Some(ref), parked))
  }

  /** The transaction that a successful balance change commits. */
  function MoveWrite(job: Job, change: BalanceChange): Write {
    var mv := Some(Move(job.core.req.wallet, job.dir, job.core.amount, change));
    match job.parked
    case None => Insert(RowOf(job.core.(result := Some(change.after)), PROCESSED, NO_FAILURE, job.ref), mv)
    case Some(id) => Settle(id, PROCESSED, NO_FAILURE, job.ref, mv)
  }

  function LossRow(core: Core, balance: Money): Row {
    RowOf(core.(result := Some(balance)), PROCESSED, NO_FAILURE, None)
  }

  /** The result balance of a rejected transaction is read outside any transaction; a failed read is ignored. */
  function RejectedRow(st: Store, core: Core, failure: FailureCode): Row {
    var wallet := core.req.wallet;
    RowOf(if wallet in st.wallets then core.(result := Some(st.wallets[wallet].balance)) else core,
          REJECTED, failure, None)
  }

  /** CreateWallet before its transaction. */
  function CheckNewWallet(st: Store, player: string, provider: string, initial: Money, walletId: string): Pc {
    if provider == "" then Done(WalletRefusal(InvalidProviderID))
    else if player == "" then Done(WalletRefusal(InvalidPlayerID))
    else if initial.currency == "" then Done(WalletRefusal(InvalidCurrency))
    else if initial.amount < 0 then Done(WalletRefusal(NegativeBalance))
    else if exists x :: x in st.wallets && st.wallets[x].player == player && st.wallets[x].provider == provider
                        && st.wallets[x].balance.currency == initial.currency then
      Done(WalletRefusal(DuplicateWallet))
    else if Blank(walletId) || walletId in st.wallets then FindWallet
    else if Rehydrate(walletId, WalletRow(player, provider, initial, 1)).Failure? then
      Done(WalletRefusal(Rehydrate(walletId, WalletRow(player, provider, initial, 1)).error))
    else Commit(Open(walletId, player, provider, initial), Return)
  }

  // ---------------------------------------------------------------- one step of one instance

  /** The next program point after a step that does not commit. */
  function Advance(st: Store, call: Call, pc: Pc, o: Oracle): Pc {
    match pc
    case FindByKey =>
      if !call.Process? then pc else
      var found := FindKey(st.rows, call.req.provider, call.key);
      if found.None? then CheckExternal
      else if st.rows[found.value].core.req != call.req then Done(Refused(PayloadConflict))
      else Replay(found.value, st.rows[found.value])
    case CheckExternal =>
      if !call.Process? then pc
      else if ExternalUnderOtherKey(st.rows, call.req.provider, call.req.externalId, call.key) then
        Done(Refused(ExternalIDReuse))
      else Dispatch(call.req, call.key)
    case FindReference(core, parked) =>
      var found := FindExternal(st.rows, core.req.provider, core.req.reference, o.pick);
      if parked.None? then OnReferenceDirect(core, found, st.rows)
      else OnReferenceDeferred(core, parked.value, found, st.rows)
    case CheckReversed(core, parked, ref, refRow) =>
      OnReversedChecked(core, parked, ref, refRow, !o.blind && HasSuccessfulReversal(st.rows, ref))
    case ReadLoss(core) =>
      if core.req.wallet !in st.wallets then Done(Refused(NotFound))
      else Commit(Insert(LossRow(core, st.wallets[core.req.wallet].balance), None), Return)
    case LockWallet(job) =>
      if job.core.req.wallet !in st.wallets then OnWalletError(job, WalletNotFound)
      else
        var read := st.wallets[job.core.req.wallet];
        var change := Change(read, job.dir, job.core.amount);
        if change.Failure? then OnWalletError(job, change.error) else Update(job, read, change.value)
    case Update(job, read, change) =>
      if VersionTest(st, job, read) then Commit(MoveWrite(job, change), Return)
      else OnWalletError(job, ConcurrentUpdate)
    case ReadRejected(core, failure, error) =>
      Commit(Insert(RejectedRow(st, core, failure), None), ReturnError(error))
    case FindDuplicate =>
      if !call.Process? then pc else
      var found := FindKey(st.rows, call.req.provider, call.key);
      if found.None? then Done(Refused(DatabaseFailure)) else Replay(found.value, st.rows[found.value])
    case ReplayBalance(id, row) =>
      if row.core.req.wallet !in st.wallets then Done(Refused(NotFound))
      else Done(Answer(id, row.state.status, Some(st.wallets[row.core.req.wallet].balance), true))
    case ReportBalance(id, status, wallet, strict) =>
      if wallet in st.wallets then Done(Answer(id, status, Some(st.wallets[wallet].balance), false))
      else if strict then Done(Refused(NotFound))
      else Done(Answer(id, status, None, false))
    case FindParked =>
      if !call.Resolve? then pc
      else if call.id >= |st.rows| then Done(Refused(NotFound))
      else
        var tx := st.rows[call.id];
        if tx.state.status != PENDING_REFERENCE then Done(Answer(call.id, tx.state.status, None, false)) else Claim(tx)
    case Claim(tx) =>
      if !call.Resolve? then pc
      else if call.id >= |st.rows| || st.rows[call.id].state.status != PENDING_REFERENCE then
        Done(Answer(call.id, tx.state.status, None, false))
      else if tx.state.attempts >= MAX_REF_ATTEMPTS then Refuse(tx.core, Some(call.id), REFERENCE_NOT_FOUND)
      else FindReference(tx.core, Some(call.id))
    case FindWallet =>
      if !call.Create? then pc else CheckNewWallet(st, call.player, call.provider, call.initial, o.walletId)
    case Commit(_, _) => pc
    case Done(_) => pc
  }

  /** UpdateBalanceTx finds the version that was read under the lock. */
  predicate VersionTest(st: Store, job: Job, read: WalletRow) {
    job.core.req.wallet in st.wallets && st.wallets[job.core.req.wallet].version == read.version
  }

  /** The row a write leaves: the new row's position, or the updated row. */
  function WrittenRow(st: Store, w: Write): nat {
    match w
    case Insert(_, _) => |st.rows|
    case Settle(id, _, _, _, _) => id
    case Wait(id) => id
    case Open(_, _, _, _) => |st.rows|
  }

  function AnswerFor(st: Store, w: Write): Reply {
    match w
    case Insert(row, move) =>
      Answer(|st.rows|, row.state.status, if move.Some? then Some(move.value.change.after) else None, false)
    case Settle(id, status, _, _, move) =>
      Answer(id, status, if move.Some? then Some(move.value.change.after) else None, false)
    case Wait(id) => Answer(id, PENDING_REFERENCE, None, false)
    case Open(wallet, _, _, _) => Created(wallet)
  }

  /**
   Answer for a committed row. The balance in the answer for a rejection or a LOSS is read after the commit; a failed
   read is an error for a LOSS and is ignored for a rejection.
   */
  function Report(st: Store, w: Write): Pc {
    match w
    case Insert(row, None) =>
      if row.state.status == PENDING_REFERENCE then Done(AnswerFor(st, w))
      else ReportBalance(|st.rows|, row.state.status, row.core.req.wallet, row.state.status == PROCESSED)
    case Settle(id, REJECTED, _, _, None) =>
      if id < |st.rows| then ReportBalance(id, REJECTED, st.rows[id].core.req.wallet, false) else Done(AnswerFor(st, w))
    case _ => Done(AnswerFor(st, w))
  }

  /** The program point after write w, which was the instance's own, committed on top of st. */
  function Committed(st: Store, w: Write, after: After): Pc {
    match after
    case Return => Report(st, w)
    case ReturnError(e) => Done(Refused(e))
    case Unclaimed(Some(e)) => Done(Refused(e))
    case Unclaimed(None) => Report(st, w)
    case RejectNext => Commit(Settle(WrittenRow(st, w), REJECTED, REFERENCE_NOT_FOUND, None, None), Unclaimed(None))
  }

  /** The program point after a constraint stopped the write. */
  function Violated(w: Write, after: After): Pc {
    if after.ReturnError? then Done(Refused(after.error))
    else if w.Open? then Done(WalletRefusal(DuplicateWallet))
    else if w.Insert? && w.move.Some? then
      if Reversal(w.row.core.kind) && w.row.state.ref.Some? then Done(Refused(DoubleReversal)) else FindDuplicate
    else Done(Refused(DatabaseFailure))
  }

  // ---------------------------------------------------------------- locks

  /** The wallet row that an instance holds FOR UPDATE. */
  function HeldWallet(pc: Pc): Option<string> {
    match pc
    case Update(job, _, _) => Some(job.core.req.wallet)
    case Commit(Insert(_, Some(mv)), _) => Some(mv.wallet)
    case Commit(Settle(_, _, _, _, Some(mv)), _) => Some(mv.wallet)
    case _ => None
  }

  /** The transaction row that an instance holds FOR UPDATE. */
  function HeldRow(pc: Pc): Option<nat> {
    match pc
    case FindReference(_, parked) => parked
    case CheckReversed(_, parked, _, _) => parked
    case LockWallet(job) => job.parked
    case Update(job, _, _) => job.parked
    case Commit(Settle(id, _, _, _, _), after) => if after.Unclaimed? then None else Some(id)
    case Commit(Wait(id), _) => Some(id)
    case _ => None
  }

  /** The locks that the next step takes. */
  function WantedWallet(pc: Pc): Option<string> {
    if pc.LockWallet? then Some(pc.job.core.req.wallet) else None
  }

  function WantedRow(call: Call, pc: Pc): Option<nat> {
    match pc
    case Claim(_) => if call.Resolve? then Some(call.id) else None
    case Commit(Settle(id, _, _, _, _), Unclaimed(_)) => Some(id)
    case _ => None
  }

  predicate WalletFree(s: Sys, a: nat, wallet: string) {
    forall b :: b in s.actors && b != a ==> HeldWallet(s.actors[b].pc) != Some(wallet)
  }

  predicate RowFree(s: Sys, a: nat, id: nat) {
    forall b :: b in s.actors && b != a ==> HeldRow(s.actors[b].pc) != Some(id)
  }

  /** Instance a must wait for a lock. */
  predicate Blocked(s: Sys, a: nat)
    requires a in s.actors
  {
    var actor := s.actors[a];
    || (WantedWallet(actor.pc).Some? && !WalletFree(s, a, WantedWallet(actor.pc).value))
    || (WantedRow(actor.call, actor.pc).Some? && !RowFree(s, a, WantedRow(actor.call, actor.pc).value))
  }

  // ---------------------------------------------------------------- the system

  datatype Label =
    | Arrive(a: nat, call: Call)
    | Step(a: nat, oracle: Oracle)
    | Crash(a: nat)
    | ForeignPending(core: Core)
    | ForeignSettle(id: nat, status: Status)

  function EntryPoint(call: Call): Pc {
    match call
    case Process(_, _) => FindByKey
    case Resolve(_) => FindParked
    case Create(_, _, _) => FindWallet
  }

  function SetPc(s: Sys, a: nat, pc: Pc): Sys
    requires a in s.actors
  {
    s.(actors := s.actors[a := Actor(s.actors[a].call, pc)])
  }

  /** The commit of instance a's buffered write, or its refusal by a constraint. */
  function CommitStep(s: Sys, a: nat, w: Write, after: After): Sys
    requires a in s.actors
  {
    if Applicable(s.store, w) && Admits(s.store, w) then
      var t := SetPc(s, a, Committed(s.store, w, after));
      t.(store := Apply(s.store, w),
         log := s.log + [w],
         waits := if w.Wait? then s.waits + multiset{w.id} else s.waits)
    else
      var t := SetPc(s, a, Violated(w, after));
      t.(conflicts := if w.Settle? && w.ref.Some? then s.conflicts + multiset{(w.id, w.ref.value)} else s.conflicts)
  }

  function ActorStep(s: Sys, a: nat, o: Oracle): Sys
    requires a in s.actors
  {
    var actor := s.actors[a];
    if actor.pc.Commit? then CommitStep(s, a, actor.pc.write, actor.pc.after)
    else SetPc(s, a, Advance(s.store, actor.call, actor.pc, o))
  }

  /**
   How a process outside the service settles a PENDING row: a BET, WIN or LOSS may become PROCESSED together
   with its own balance change, any row may become REJECTED or FAILED.
   */
  function ForeignWrite(st: Store, id: nat, status: Status): Option<Write>
    requires id < |st.rows|
  {
    var core := st.rows[id].core;
    if st.rows[id].state.status != PENDING || !Terminal(status) then None
    else if status != PROCESSED then Some(Settle(id, status, NO_FAILURE, None, None))
    else if core.kind == LOSS then Some(Settle(id, PROCESSED, NO_FAILURE, None, None))
    else if Reversal(core.kind) then None
    else
      var mv := Recompute(st, Move(core.req.wallet, if core.kind == BET then DEBIT else CREDIT, core.amount,
                                   BalanceChange(core.amount, core.amount, 0)));
      if mv.None? then None else Some(Settle(id, PROCESSED, NO_FAILURE, None, mv))
  }

  /** A write of a foreign process. */
  function ForeignStep(s: Sys, w: Write): Sys {
    if Applicable(s.store, w) && Admits(s.store, w) then s.(store := Apply(s.store, w), log := s.log + [w]) else s
  }

  /** The write moves money of a wallet that an instance has locked. */
  predicate WaitsForWallet(s: Sys, w: Write) {
    w.Settle? && w.move.Some? && exists b :: b in s.actors && HeldWallet(s.actors[b].pc) == Some(w.move.value.wallet)
  }

  /** One step of the system; a label that is not enabled changes nothing. */
  function Next(s: Sys, l: Label): Sys {
    match l
    case Arrive(a, call) =>
      if a in s.actors || (call.Process? && call.key == "") then s
      else s.(actors := s.actors[a := Actor(call, EntryPoint(call))])
    case Step(a, o) =>
      if a in s.actors && !Blocked(s, a) then ActorStep(s, a, o) else s
    case Crash(a) => s.(actors := s.actors - {a})
    case ForeignPending(core) =>
      if CoreOk(core) && core.result.None? then
        ForeignStep(s, Insert(RowOf(core, PENDING, NO_FAILURE, None), None))
      else s
    case ForeignSettle(id, status) =>
      if id >= |s.store.rows| then s
      else
        var w := ForeignWrite(s.store, id, status);
        if w.None? then s
        else if WaitsForWallet(s, w.value) then s
        else ForeignStep(s, w.value)
  }

  /** The state after a sequence of steps. Every interleaving of every set of calls is such a sequence. */
  function Exec(s: Sys, labels: seq<Label>): Sys {
    if labels == [] then s else Next(Exec(s, labels[..|labels| - 1]), labels[|labels| - 1])
  }
}
