/** Wager transactions: requests, rows, and the status machine. */
module Transactions {
  import opened Results
  import opened MoneyValue

  datatype Kind = OPENING | BET | WIN | LOSS | REFUND | ROLLBACK

  datatype Status = PENDING | PENDING_REFERENCE | PROCESSED | REJECTED | FAILED

  datatype FailureCode =
    | NO_FAILURE
    | INSUFFICIENT_BALANCE
    | CURRENCY_MISMATCH
    | WALLET_ERROR
    | MISSING_REFERENCE
    | REFERENCE_NOT_FOUND
    | REFERENCE_NOT_SUCCESSFUL
    | PROVIDER_MISMATCH
    | PLAYER_MISMATCH
    | WALLET_MISMATCH
    | ROUND_MISMATCH
    | DOUBLE_REVERSAL
    | REVERSAL_VALUE_MISMATCH
    | INVALID_REFERENCE_TYPE
    | REVERSAL_INSUFFICIENT_BALANCE

  /**
   The ten request fields that enter the payload hash. The hash is taken as injective, so a row
   stores the request itself in its place. The empty string stands for an SQL NULL.
   */
  datatype Request = Request(
    provider: string, externalId: string, player: string, wallet: string, round: string,
    game: string, kind: string, amount: string, currency: string, reference: string)

  /** The columns of a row that no statement updates. */
  datatype Core = Core(req: Request, key: string, kind: Kind, amount: Money, result: Option<Money>)

  /** The columns that UpdateStatusTx, SetInternalReferenceTx and IncrementRefAttemptsTx update. */
  datatype State = State(status: Status, failure: FailureCode, ref: Option<nat>, attempts: nat)

  datatype Row = Row(core: Core, state: State)

  predicate Reversal(kind: Kind) {
    kind == REFUND || kind == ROLLBACK
  }

  predicate Terminal(status: Status) {
    status == PROCESSED || status == REJECTED || status == FAILED
  }

  predicate ValidTransition(from: Status, to: Status) {
    match from
    case PENDING => to != PENDING
    case PENDING_REFERENCE => Terminal(to)
    case _ => false
  }

  /** Distance from the end of the status machine. */
  function StatusRank(status: Status): nat {
    match status
    case PENDING => 2
    case PENDING_REFERENCE => 1
    case _ => 0
  }

  /** The status machine has no cycle, and its end points are exactly the terminal statuses. */
  lemma TransitionsDescend(from: Status, to: Status)
    ensures ValidTransition(from, to) ==> StatusRank(to) < StatusRank(from)
    ensures Terminal(from) <==> forall t :: !ValidTransition(from, t)
  {
    if !Terminal(from) {
      assert ValidTransition(from, PROCESSED);
    }
  }

  function ParseKind(s: string): Option<Kind> {
    if s == "BET" then Some(BET)
    else if s == "WIN" then Some(WIN)
    else if s == "LOSS" then Some(LOSS)
    else if s == "REFUND" then Some(REFUND)
    else if s == "ROLLBACK" then Some(ROLLBACK)
    else None
  }

  datatype ServiceError =
    | PayloadConflict
    | ExternalIDReuse
    | InvalidTransactionType
    | OpeningRejected
    | InvalidAmount(cause: MoneyError)
    | InvalidProvider
    | InvalidExternalID
    | InvalidIdempotencyKey
    | InvalidWallet
    | InvalidPlayer
    | AmountMustBePositive
    | AmountMustBeZero
    | InsufficientFunds
    | WalletRefused
    | Concurrent
    | DoubleReversal
    | NotFound
    | DatabaseFailure

  /** The idempotency key that a call uses: the header, else the body, else provider:externalId. */
  function EffectiveKey(header: string, body: string, req: Request): (key: string)
    ensures key != ""
  {
    if header != "" then header else if body != "" then body else DerivedKey(req)
  }

  function DerivedKey(req: Request): string {
    req.provider + ":" + req.externalId
  }

  /** What every transaction of the service satisfies before it is stored. */
  predicate CoreOk(c: Core) {
    && c.kind != OPENING
    && ParseKind(c.req.kind) == Some(c.kind)
    && c.req.provider != "" && c.req.externalId != "" && c.req.wallet != "" && c.req.player != ""
    && c.key != ""
    && Presentable(c.amount)
    && (c.kind == LOSS <==> c.amount.amount == 0)
  }

  /** Kind, amount and constructor checks of ProcessTransaction, in the source's order. */
  function Prepare(req: Request, key: string): (r: Result<Core, ServiceError>)
    ensures r.Success? ==> CoreOk(r.value) && r.value.req == req && r.value.key == key && r.value.result.None?
  {
    var kind := ParseKind(req.kind);
    if kind.None? then Failure(InvalidTransactionType)
    else
      var parsed := Parse(req.amount, req.currency);
      if parsed.Failure? then Failure(InvalidAmount(parsed.error))
      else NewExternalTransaction(req, key, kind.value, parsed.value)
  }

  function NewExternalTransaction(req: Request, key: string, kind: Kind, amount: Money): (r: Result<Core, ServiceError>)
    ensures r.Success? <==>
            && kind != OPENING
            && req.provider != "" && req.externalId != "" && key != "" && req.wallet != "" && req.player != ""
            && (if kind == LOSS then amount.amount == 0 else amount.amount > 0)
    ensures r.Success? ==> r.value == Core(req, key, kind, amount, None)
    ensures r.Success? && ParseKind(req.kind) == Some(kind) && ValidCurrency(amount.currency) ==> CoreOk(r.value)
    ensures r.Failure? ==>
              r.error == if kind == OPENING then OpeningRejected
                         else if req.provider == "" then InvalidProvider
                         else if req.externalId == "" then InvalidExternalID
                         else if key == "" then InvalidIdempotencyKey
                         else if req.wallet == "" then InvalidWallet
                         else if req.player == "" then InvalidPlayer
                         else if kind != LOSS then AmountMustBePositive
                         else AmountMustBeZero
  {
    if kind == OPENING then Failure(OpeningRejected)
    else if req.provider == "" then Failure(InvalidProvider)
    else if req.externalId == "" then Failure(InvalidExternalID)
    else if key == "" then Failure(InvalidIdempotencyKey)
    else if req.wallet == "" then Failure(InvalidWallet)
    else if req.player == "" then Failure(InvalidPlayer)
    else if kind != LOSS && amount.amount <= 0 then Failure(AmountMustBePositive)
    else if kind == LOSS && amount.amount != 0 then Failure(AmountMustBeZero)
    else Success(Core(req, key, kind, amount, None))
  }

  /** The in-memory transaction, whose status moves only along the status machine. */
  class Transaction {
    const core: Core
    var state: State

    constructor (core: Core)
      ensures this.core == core && state == State(PENDING, NO_FAILURE, None, 0)
    {
      this.core := core;
      state := State(PENDING, NO_FAILURE, None, 0);
    }

    method TransitionTo(status: Status) returns (ok: bool)
      modifies this
      ensures ok <==>
              || (old(state.status) == PENDING && status in {PENDING_REFERENCE, PROCESSED, REJECTED, FAILED})
              || (old(state.status) == PENDING_REFERENCE && status in {PROCESSED, REJECTED, FAILED})
      ensures state == if ok then old(state).(status := status) else old(state)
      ensures ok ==> StatusRank(state.status) < StatusRank(old(state.status))
      ensures Terminal(old(state.status)) ==> state == old(state)
    {
      if Terminal(state.status) { return false; }
      if !ValidTransition(state.status, status) { return false; }
      state := state.(status := status);
      return true;
    }
  }
}
