/**
 The wallet aggregate and its ledger entries.

 `Change` is the value-level meaning of a debit or credit; class `Wallet` is the mutable
 aggregate whose methods are proved against it.
 */
module WalletAggregate {
  import opened Results
  import opened MoneyValue

  datatype Direction = DEBIT | CREDIT

  datatype WalletError =
    | InvalidWalletID
    | InvalidPlayerID
    | InvalidProviderID
    | InvalidCurrency
    | WalletCurrencyMismatch
    | NegativeBalance
    | InsufficientBalance
    | PositiveAmountRequired
    | InvalidWalletVersion
    | InvalidLedgerEntry
    | LedgerMathInvalid
    | WalletNotFound
    | DuplicateWallet
    | ConcurrentUpdate
    | InvalidCursor
    | Arithmetic(cause: MoneyError)

  /** A row of the wallets table. The currency column always equals the balance's currency. */
  datatype WalletRow = WalletRow(player: string, provider: string, balance: Money, version: nat)

  datatype BalanceChange = BalanceChange(before: Money, after: Money, version: nat)

  predicate Blank(s: string) {
    forall i :: 0 <= i < |s| ==> Space(s[i])
  }

  /** What RehydrateWallet demands of a stored wallet. */
  predicate WalletRowOk(w: WalletRow) {
    && !Blank(w.player)
    && !Blank(w.provider)
    && Presentable(w.balance)
    && w.version >= 1
  }

  /** RehydrateWallet's checks, in the source's order. */
  function Rehydrate(id: string, w: WalletRow): (r: Result<WalletRow, WalletError>)
    ensures r.Success? <==> !Blank(id) && WalletRowOk(w)
    ensures r.Success? ==> r.value == w
    ensures r.Failure? ==>
              r.error == if Blank(id) then InvalidWalletID
                         else if Blank(w.player) then InvalidPlayerID
                         else if Blank(w.provider) then InvalidProviderID
                         else if w.balance.currency != "BRL" then InvalidCurrency
                         else if w.balance.amount < 0 then NegativeBalance
                         else InvalidWalletVersion
  {
    if Blank(id) then Failure(InvalidWalletID)
    else if Blank(w.player) then Failure(InvalidPlayerID)
    else if Blank(w.provider) then Failure(InvalidProviderID)
    else if w.balance.currency != BRL then Failure(InvalidCurrency)
    else if w.balance.amount < 0 then Failure(NegativeBalance)
    else if w.version == 0 then Failure(InvalidWalletVersion)
    else Success(w)
  }

  function Opposite(dir: Direction): Direction {
    if dir == DEBIT then CREDIT else DEBIT
  }

  /** The effect of a movement on an exact balance in cents. */
  function Signed(dir: Direction, amount: Money): int {
    if dir == CREDIT then amount.amount as int else -(amount.amount as int)
  }

  predicate CanDebit(w: WalletRow, amount: Money) {
    && amount.currency == w.balance.currency
    && amount.amount > 0
    && Compare(w.balance, amount).Success?
    && Compare(w.balance, amount).value >= 0
  }

  /** Wallet.Debit and Wallet.Credit on the value of a wallet. */
  function Change(w: WalletRow, dir: Direction, amount: Money): (r: Result<BalanceChange, WalletError>)
    ensures WalletRowOk(w) ==>
              (r.Success? <==>
               && amount.currency == BRL
               && amount.amount > 0
               && 0 <= w.balance.amount as int + Signed(dir, amount) <= MAX_INT64 as int)
    ensures r.Success? && WalletRowOk(w) ==>
              && r.value.before == w.balance
              && Presentable(r.value.after)
              && r.value.after.amount as int == w.balance.amount as int + Signed(dir, amount)
              && r.value.version == w.version + 1
    ensures r.Failure? && WalletRowOk(w) ==>
              r.error == if amount.currency != "BRL" then WalletCurrencyMismatch
                         else if amount.amount <= 0 then PositiveAmountRequired
                         else if dir == DEBIT then InsufficientBalance
                         else Arithmetic(Overflow)
  {
    if amount.currency != w.balance.currency then Failure(WalletCurrencyMismatch)
    else if amount.amount <= 0 then Failure(PositiveAmountRequired)
    else if dir == DEBIT && !CanDebit(w, amount) then Failure(InsufficientBalance)
    else
      var after := if dir == DEBIT then Subtract(w.balance, amount) else Add(w.balance, amount);
      if after.Failure? then Failure(Arithmetic(after.error))
      else Success(BalanceChange(w.balance, after.value, w.version + 1))
  }

  /** A debit and a credit of the same amount, in either order, restore the balance. */
  lemma ChangeUndone(w: WalletRow, dir: Direction, amount: Money)
    requires WalletRowOk(w) && Change(w, dir, amount).Success?
    ensures var c := Change(w, dir, amount).value;
            var undone := Change(w.(balance := c.after, version := c.version), Opposite(dir), amount);
            undone.Success? && undone.value.after == w.balance && undone.value.version == w.version + 2
  {
    var c := Change(w, dir, amount).value;
    assert WalletRowOk(w.(balance := c.after, version := c.version));
  }

  /** The in-memory wallet. */
  class Wallet {
    const player: string
    const provider: string
    var balance: Money
    var version: nat

    function Value(): WalletRow
      reads this
    {
      WalletRow(player, provider, balance, version)
    }

    constructor (row: WalletRow)
      ensures Value() == row
    {
      player, provider, balance, version := row.player, row.provider, row.balance, row.version;
    }

    method Debit(amount: Money) returns (r: Result<BalanceChange, WalletError>)
      modifies this
      ensures r == Change(old(Value()), DEBIT, amount)
      ensures r.Failure? ==> Value() == old(Value())
      ensures r.Success? ==> Value() == old(Value()).(balance := r.value.after, version := r.value.version)
    {
      if amount.currency != balance.currency { return Failure(WalletCurrencyMismatch); }
      if amount.amount < 0 || amount.amount == 0 { return Failure(PositiveAmountRequired); }
      if !CanDebit(Value(), amount) { return Failure(InsufficientBalance); }
      var before := balance;
      var after := Subtract(balance, amount);
      if after.Failure? { return Failure(Arithmetic(after.error)); }
      balance := after.value;
      version := version + 1;
      return Success(BalanceChange(before, balance, version));
    }

    method Credit(amount: Money) returns (r: Result<BalanceChange, WalletError>)
      modifies this
      ensures r == Change(old(Value()), CREDIT, amount)
      ensures r.Failure? ==> Value() == old(Value())
      ensures r.Success? ==> Value() == old(Value()).(balance := r.value.after, version := r.value.version)
    {
      if amount.currency != balance.currency { return Failure(WalletCurrencyMismatch); }
      if amount.amount < 0 || amount.amount == 0 { return Failure(PositiveAmountRequired); }
      var before := balance;
      var after := Add(balance, amount);
      if after.Failure? { return Failure(Arithmetic(after.error)); }
      balance := after.value;
      version := version + 1;
      return Success(BalanceChange(before, balance, version));
    }
  }

  // ---------------------------------------------------------------- ledger entries

  /** A row of the append-only ledger; `tx` is the transaction it belongs to. */
  datatype Entry = Entry(wallet: string, tx: nat, dir: Direction, amount: Money, before: Money, after: Money)

  /** The CHECK constraints of the ledger table, over exact integers. */
  predicate EntryMath(e: Entry) {
    && Presentable(e.amount) && e.amount.amount > 0
    && Presentable(e.before)
    && Presentable(e.after)
    && e.after.amount as int == e.before.amount as int + Signed(e.dir, e.amount)
  }

  /** NewLedgerEntry succeeds exactly on entries of a named wallet, in one currency, that satisfy the arithmetic. */
  function NewLedgerEntry(e: Entry): (r: Result<Entry, WalletError>)
    ensures r.Success? <==>
            && e.wallet != ""
            && e.amount.amount > 0
            && e.before.amount >= 0 && e.after.amount >= 0
            && e.amount.currency == e.before.currency == e.after.currency
            && e.after.amount as int == e.before.amount as int + Signed(e.dir, e.amount)
    ensures r.Success? ==> r.value == e
    ensures r.Failure? ==>
              r.error == if e.wallet == "" then InvalidLedgerEntry
                         else if e.amount.amount <= 0 then PositiveAmountRequired
                         else if e.before.amount < 0 || e.after.amount < 0 then NegativeBalance
                         else if !(e.amount.currency == e.before.currency == e.after.currency)
                         then WalletCurrencyMismatch
                         else if e.dir == CREDIT
                                 && e.before.amount as int + e.amount.amount as int > 0x7fff_ffff_ffff_ffff
                         then Arithmetic(Overflow)
                         else LedgerMathInvalid
  {
    if e.wallet == "" then Failure(InvalidLedgerEntry)
    else if e.amount.amount <= 0 then Failure(PositiveAmountRequired)
    else if e.before.amount < 0 || e.after.amount < 0 then Failure(NegativeBalance)
    else if e.amount.currency != e.before.currency || e.amount.currency != e.after.currency then
      Failure(WalletCurrencyMismatch)
    else
      var expected := if e.dir == CREDIT then Add(e.before, e.amount) else Subtract(e.before, e.amount);
      if expected.Failure? then Failure(Arithmetic(expected.error))
      else if Compare(expected.value, e.after).value != 0 then Failure(LedgerMathInvalid)
      else Success(e)
  }
}
