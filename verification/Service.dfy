/**
 The services as they run when one call follows the other: procedures that update the four tables statement by
 statement and roll back on errors. Each is proved to do what the step system does when nothing comes in between.
 */
module Service {
  import opened Results
  import opened MoneyValue
  import opened WalletAggregate
  import opened Transactions
  import opened Tables
  import opened Machine
  import opened Invariants
  import opened SystemProofs
  import opened ExternalIds
  import opened Exclusive
  import opened EngineTheorems
  import opened ReversalTheorems
  import opened Termination
  import opened SoloRuns
  import opened DecisionTables
  import opened TableProofs

  /** How commitWithLedger ended. */
  datatype Posting = Posted(id: nat) | Reversed | Duplicate

  /** The tables after UpdateBalanceTx on a wallet. */
  function Charged(st: Store, wallet: string, balance: Money): Store
    requires wallet in st.wallets
  {
    var w := st.wallets[wallet];
    st.(wallets := st.wallets[wallet := w.(balance := balance, version := w.version + 1)])
  }

  class Database {
    var wallets: map<string, WalletRow>
    var rows: seq<Row>
    var ledger: seq<Entry>
    var outbox: seq<Event>
    ghost var run: seq<Label>

    function Contents(): Store
      reads this
    {
      Store(wallets, rows, ledger, outbox)
    }

    /** The tables are those of some run, in a state in which no call is in progress. */
    ghost predicate Valid()
      reads this
    {
      Exec(INIT, run).actors == map[] && Exec(INIT, run).store == Contents()
    }

    constructor ()
      ensures Valid() && Quiet(run) && Contents() == EMPTY
    {
      wallets, rows, ledger, outbox, run := map[], [], [], [], [];
    }

    /** The database that a run of any instances and foreign processes has left, with no call in progress. */
    constructor Attach(ghost labels: seq<Label>, st: Store)
      ensures run == labels && Contents() == st
      ensures Valid() <==> Exec(INIT, labels).actors == map[] && Exec(INIT, labels).store == st
    {
      wallets, rows, ledger, outbox, run := st.wallets, st.rows, st.ledger, st.outbox, labels;
    }

    // -------------------------------------------------------------- statements

    method CreateTransactionTx(row: Row) returns (id: Option<nat>)
      modifies this`rows
      ensures id == if InsertAllowed(old(Contents()), row) then Some(|old(rows)|) else None
      ensures id.Some? <==>
              && row.core.req.wallet in wallets
              && !(exists i :: 0 <= i < |old(rows)| && row.core.req.provider != "" && row.core.key != ""
                               && old(rows)[i].core.req.provider == row.core.req.provider
                               && old(rows)[i].core.key == row.core.key)
              && !(row.core.kind in {REFUND, ROLLBACK} && row.state.status == PROCESSED && row.state.ref.Some?
                   && Taken(old(rows), row.state.ref.value))
      ensures rows == if id.Some? then old(rows) + [row] else old(rows)
    {
      if row.state.ref.Some? { TakenIsReversed(rows, row.state.ref.value); }
      assert forall i :: 0 <= i < |rows| ==>
          (HasKey(rows[i].core, row.core.req.provider, row.core.key) <==>
           && row.core.req.provider != "" && row.core.key != ""
           && rows[i].core.req.provider == row.core.req.provider && rows[i].core.key == row.core.key);
      if !InsertAllowed(Contents(), row) { return None; }
      id := Some(|rows|);
      rows := rows + [row];
    }

    method UpdateStatusTx(id: nat, status: Status, failure: FailureCode)
      requires id < |rows|
      modifies this`rows
      ensures var row := old(rows[id]);
              rows == old(rows)[id := row.(state := row.state.(status := status, failure := failure))]
    {
      rows := rows[id := rows[id].(state := rows[id].state.(status := status, failure := failure))];
    }

    /** The index of successful reversals refuses a second one. */
    method SetInternalReferenceTx(id: nat, ref: nat) returns (ok: bool)
      requires id < |rows|
      modifies this`rows
      ensures ok == !(Reversal(old(rows[id]).core.kind) && old(rows[id]).state.status == PROCESSED
                      && old(rows[id]).state.ref != Some(ref) && HasSuccessfulReversal(old(rows), ref))
      ensures rows == if ok then old(rows)[id := old(rows[id]).(state := old(rows[id]).state.(ref := Some(ref)))]
                else old(rows)
    {
      var row := rows[id];
      if Reversal(row.core.kind) && row.state.status == PROCESSED && row.state.ref != Some(ref)
        && HasSuccessfulReversal(rows, ref) {
        return false;
      }
      rows := rows[id := row.(state := row.state.(ref := Some(ref)))];
      return true;
    }

    method IncrementRefAttemptsTx(id: nat)
      requires id < |rows|
      modifies this`rows
      ensures var row := old(rows[id]);
              rows == old(rows)[id := row.(state := row.state.(attempts := row.state.attempts + 1))]
    {
      rows := rows[id := rows[id].(state := rows[id].state.(attempts := rows[id].state.attempts + 1))];
    }

    method UpdateBalanceTx(wallet: string, balance: Money, version: nat) returns (ok: bool)
      modifies this`wallets
      ensures ok <==> wallet in old(wallets) && old(wallets)[wallet].version == version
      ensures wallets ==
                if ok then old(wallets)[wallet := old(wallets)[wallet].(balance := balance, version := version + 1)]
                         else old(wallets)
    {
      if wallet !in wallets || wallets[wallet].version != version { return false; }
      wallets := wallets[wallet := wallets[wallet].(balance := balance, version := wallets[wallet].version + 1)];
      return true;
    }

    method CreateLedgerEntryTx(e: Entry)
      modifies this`ledger
      ensures ledger == old(ledger) + [e]
    {
      ledger := ledger + [e];
    }

    method CreateOutboxEventsTx(events: seq<Event>)
      modifies this`outbox
      ensures outbox == old(outbox) + events
    {
      for i := 0 to |events|
        invariant outbox == old(outbox) + events[..i]
      {
        outbox := outbox + [events[i]];
        assert events[..i + 1] == events[..i] + [events[i]];
      }
      assert events[..|events|] == events;
    }

    method Rollback(saved: Store)
      modifies this`wallets, this`rows, this`ledger, this`outbox
      ensures Contents() == saved
    {
      wallets, rows, ledger, outbox := saved.wallets, saved.rows, saved.ledger, saved.outbox;
    }

    // -------------------------------------------------------------- balance changes

    /** applyBalanceChange: lock and read the wallet, change it in memory, write it back if its version is unchanged. */
    method ApplyBalanceChange(wallet: string, amount: Money, dir: Direction)
      returns (r: Result<BalanceChange, WalletError>)
      modifies this`wallets
      ensures wallet == "" ==> r == Failure(InvalidWalletID)
      ensures wallet != "" && wallet !in old(wallets) ==> r == Failure(WalletNotFound)
      ensures wallet != "" && wallet in old(wallets) ==> r == Change(old(wallets)[wallet], dir, amount)
      ensures r.Failure? ==> wallets == old(wallets)
      ensures r.Success? ==>
                && wallet in old(wallets)
                && Contents() == Charged(old(Contents()), wallet, r.value.after)
    {
      if wallet == "" { return Failure(InvalidWalletID); }
      if wallet !in wallets { return Failure(WalletNotFound); }
      var w := new Wallet(wallets[wallet]);
      var version := w.version;
      if dir == DEBIT {
        r := w.Debit(amount);
      } else {
        r := w.Credit(amount);
      }
      if r.Failure? { return; }
      var ok := UpdateBalanceTx(wallet, r.value.after, version);
      if !ok { return Failure(ConcurrentUpdate); }
    }

    /**
     commitWithLedger, after the balance change: row, ledger entry, events. The tables at the beginning of the
     transaction are `saved`; they come back if an index refuses the row.
     */
    method CommitWithLedger(saved: Store, job: Job, change: BalanceChange) returns (r: Posting)
      requires job.parked.None? && job.core.req.wallet in saved.wallets
      requires Contents() == Charged(saved, job.core.req.wallet, change.after)
      modifies this`wallets, this`rows, this`ledger, this`outbox
      ensures r.Posted? <==> Admits(saved, MoveWrite(job, change))
      ensures r.Posted? ==> r.id == |saved.rows| && Contents() == Apply(saved, MoveWrite(job, change))
      ensures !r.Posted? ==> Contents() == saved
      ensures !r.Posted? ==> (r.Reversed? <==> Reversal(job.core.kind) && job.ref.Some?)
    {
      var wallet := job.core.req.wallet;
      var tx := new Transaction(job.core.(result := Some(change.after)));
      tx.state := tx.state.(ref := job.ref);
      var moved := tx.TransitionTo(PROCESSED);
      var id := CreateTransactionTx(Row(tx.core, tx.state));
      if id.None? {
        Rollback(saved);
        return if Reversal(job.core.kind) && job.ref.Some? then Reversed else Duplicate;
      }
      CreateLedgerEntryTx(Entry(wallet, id.value, job.dir, job.core.amount, change.before, change.after));
      CreateOutboxEventsTx(MoveEvents(id.value, job.core.amount, Move(wallet, job.dir, job.core.amount, change)));
      return Posted(id.value);
    }

    // -------------------------------------------------------------- rows that move no money

    /** A transaction that inserts one row and the event of its status. */
    method StoreRow(core: Core, status: Status, failure: FailureCode) returns (id: Option<nat>)
      requires status == PROCESSED || status == REJECTED || status == PENDING_REFERENCE
      modifies this`wallets, this`rows, this`ledger, this`outbox
      ensures var row := RowOf(core, status, failure, None);
              && id == (if InsertAllowed(old(Contents()), row) then Some(|old(rows)|) else None)
              && Contents() == if id.Some? then Apply(old(Contents()), Insert(row, None)) else old(Contents())
    {
      var tx := new Transaction(core);
      tx.state := tx.state.(failure := failure);
      var moved := tx.TransitionTo(status);
      id := CreateTransactionTx(Row(tx.core, tx.state));
      if id.Some? {
        CreateOutboxEventsTx(StatusEvents(id.value, Row(tx.core, tx.state)));
      }
    }

    /** The balance that an answer reports is read after the commit. */
    method ReadBalance(id: nat, status: Status, wallet: string, strict: bool, ghost call: Call, ghost o: Oracle)
      returns (reply: Reply)
      ensures Outcome(Contents(), Done(reply)) == Solo(Contents(), call, ReportBalance(id, status, wallet, strict), o)
    {
      SoloReport(Contents(), call, ReportBalance(id, status, wallet, strict), o);
      if wallet in wallets {
        return Answer(id, status, Some(wallets[wallet].balance), false);
      } else if strict {
        return Refused(NotFound);
      } else {
        return Answer(id, status, None, false);
      }
    }

    /** reject, processLoss, and the parking of a reversal whose reference is not settled. */
    method StoreAndReturn(core: Core, status: Status, failure: FailureCode, ghost call: Call, ghost o: Oracle)
      returns (reply: Reply)
      requires status == REJECTED || status == PENDING_REFERENCE || status == PROCESSED
      modifies this`wallets, this`rows, this`ledger, this`outbox
      ensures Outcome(Contents(), Done(reply)) ==
              Solo(old(Contents()), call, Commit(Insert(RowOf(core, status, failure, None), None), Return), o)
    {
      SoloCommit(Contents(), call, Insert(RowOf(core, status, failure, None), None), Return, o);
      var id := StoreRow(core, status, failure);
      if id.None? {
        SoloDone(Contents(), call, Refused(DatabaseFailure), o);
        return Refused(DatabaseFailure);
      }
      if status == PENDING_REFERENCE {
        reply := Answer(id.value, status, None, false);
        SoloDone(Contents(), call, reply, o);
      } else {
        reply := ReadBalance(id.value, status, core.req.wallet, status == PROCESSED, call, o);
      }
    }

    /** createAndReject: the row is stored if it can be, and the call reports the error of the wallet. */
    method CreateAndReject(core: Core, failure: FailureCode, error: ServiceError, ghost call: Call, ghost o: Oracle)
      returns (reply: Reply)
      modifies this`wallets, this`rows, this`ledger, this`outbox
      ensures Outcome(Contents(), Done(reply)) ==
              Solo(old(Contents()), call,
                Commit(Insert(RowOf(core, REJECTED, failure, None), None), ReturnError(error)), o)
    {
      SoloCommit(Contents(), call, Insert(RowOf(core, REJECTED, failure, None), None), ReturnError(error), o);
      var id := StoreRow(core, REJECTED, failure);
      reply := Refused(error);
      SoloDone(Contents(), call, reply, o);
    }

    // -------------------------------------------------------------- ProcessTransaction

    method HandleReplay(id: nat, ghost call: Call, ghost o: Oracle) returns (reply: Reply)
      requires id < |rows|
      ensures Outcome(Contents(), Done(reply)) == Solo(Contents(), call, Replay(id, rows[id]), o)
    {
      var row := rows[id];
      reply := Answer(id, row.state.status, row.core.result, true);
      if row.core.result.None? {
        if row.core.req.wallet in wallets {
          reply := Answer(id, row.state.status, Some(wallets[row.core.req.wallet].balance), true);
        } else {
          reply := Refused(NotFound);
        }
        SoloAdvances(Contents(), call, ReplayBalance(id, row), o);
      }
      SoloDone(Contents(), call, reply, o);
    }

    /** The wallet refused a new transaction: record the rejection with the balance, if that can be read. */
    method RefusedByWallet(core: Core, e: WalletError, ghost job: Job, ghost call: Call, ghost o: Oracle)
      returns (reply: Reply)
      requires job.core == core && job.parked.None? && core.result.None?
      modifies this`wallets, this`rows, this`ledger, this`outbox
      ensures Outcome(Contents(), Done(reply)) == Solo(old(Contents()), call, OnWalletError(job, e), o)
    {
      var failure, error, tx := WalletFailure(core.kind, e), WalletErrorReply(core.kind, e), core;
      if failure != WALLET_ERROR {
        SoloAdvances(Contents(), call, ReadRejected(core, failure, error), o);
        if core.req.wallet in wallets {
          tx := core.(result := Some(wallets[core.req.wallet].balance));
        }
      }
      reply := CreateAndReject(tx, failure, error, call, o);
    }

    /** Another row has the key: answer with that row. */
    method ReplayDuplicate(core: Core, ghost o: Oracle) returns (reply: Reply)
      ensures Outcome(Contents(), Done(reply)) == Solo(Contents(), Process(core.req, core.key), FindDuplicate, o)
    {
      ghost var call := Process(core.req, core.key);
      SoloAdvances(Contents(), call, FindDuplicate, o);
      var existing := FindKey(rows, core.req.provider, core.key);
      if existing.None? {
        reply := Refused(DatabaseFailure);
        SoloDone(Contents(), call, reply, o);
      } else {
        reply := HandleReplay(existing.value, call, o);
      }
    }

    /** The balance has changed in this transaction; book it. */
    method Book(saved: Store, job: Job, change: BalanceChange, ghost o: Oracle) returns (reply: Reply)
      requires job.parked.None? && job.core.req.wallet in saved.wallets
      requires Contents() == Charged(saved, job.core.req.wallet, change.after)
      modifies this`wallets, this`rows, this`ledger, this`outbox
      ensures Outcome(Contents(), Done(reply)) ==
              Solo(saved, Process(job.core.req, job.core.key), Commit(MoveWrite(job, change), Return), o)
    {
      ghost var call := Process(job.core.req, job.core.key);
      SoloCommit(saved, call, MoveWrite(job, change), Return, o);
      var posting := CommitWithLedger(saved, job, change);
      match posting {
        case Posted(id) => reply := Answer(id, PROCESSED, Some(change.after), false);
        case Reversed =>
          reply := Refused(DoubleReversal);
          SoloDone(saved, call, reply, o);
        case Duplicate => reply := ReplayDuplicate(job.core, o);
      }
    }

    /** The common end of processBet, processWin, processRefund and processRollback. */
    method MoveMoney(core: Core, dir: Direction, ref: Option<nat>, ghost o: Oracle) returns (reply: Reply)
      requires core.req.wallet != "" && core.result.None?
      modifies this`wallets, this`rows, this`ledger, this`outbox
      ensures Outcome(Contents(), Done(reply)) ==
              Solo(old(Contents()), Process(core.req, core.key), LockWallet(Job(core, dir, ref, None)), o)
    {
      var job, saved := Job(core, dir, ref, None), Contents();
      SoloLock(saved, Process(core.req, core.key), job, o);
      var change := ApplyBalanceChange(core.req.wallet, core.amount, dir);
      if change.Failure? {
        assert AfterLock(saved, job) == OnWalletError(job, change.error);
        reply := RefusedByWallet(core, change.error, job, Process(core.req, core.key), o);
      } else {
        assert AfterLock(saved, job) == Commit(MoveWrite(job, change.value), Return);
        reply := Book(saved, job, change.value, o);
      }
    }

    method ProcessLoss(core: Core, ghost o: Oracle) returns (reply: Reply)
      modifies this`wallets, this`rows, this`ledger, this`outbox
      ensures Outcome(Contents(), Done(reply)) == Solo(old(Contents()), Process(core.req, core.key), ReadLoss(core), o)
    {
      ghost var call := Process(core.req, core.key);
      SoloAdvances(Contents(), call, ReadLoss(core), o);
      if core.req.wallet !in wallets {
        reply := Refused(NotFound);
        SoloDone(Contents(), call, reply, o);
        return;
      }
      reply := StoreAndReturn(core.(result := Some(wallets[core.req.wallet].balance)), PROCESSED, NO_FAILURE, call, o);
    }

    method ProcessWin(core: Core, o: Oracle) returns (reply: Reply)
      requires core.kind == WIN && core.req.wallet != "" && core.result.None?
      modifies this`wallets, this`rows, this`ledger, this`outbox
      ensures Outcome(Contents(), Done(reply)) ==
              Solo(old(Contents()), Process(core.req, core.key),
                   if core.req.reference == "" then LockWallet(Job(core, CREDIT, None, None))
                   else FindReference(core, None),
                   o)
    {
      if core.req.reference != "" {
        ghost var call := Process(core.req, core.key);
        var found := FindExternal(rows, core.req.provider, core.req.reference, o.pick);
        ReferenceRank(core, None, found, rows);
        SoloAdvances(Contents(), call, FindReference(core, None), o);
        if found.None? {
          reply := StoreAndReturn(core, REJECTED, REFERENCE_NOT_FOUND, call, o);
          return;
        }
        var mismatch := ValidateWin(core, rows[found.value].core);
        if mismatch.Some? {
          reply := StoreAndReturn(core, REJECTED, mismatch.value, call, o);
          return;
        }
      }
      reply := MoveMoney(core, CREDIT, None, o);
    }

    /** processRefund and processRollback, which differ in the direction only. */
    method ProcessReversal(core: Core, o: Oracle) returns (reply: Reply)
      requires Reversal(core.kind) && core.req.wallet != "" && core.result.None? && core.req.reference != ""
      modifies this`wallets, this`rows, this`ledger, this`outbox
      ensures Outcome(Contents(), Done(reply)) ==
              Solo(old(Contents()), Process(core.req, core.key), FindReference(core, None), o)
    {
      ghost var call := Process(core.req, core.key);
      var found := FindExternal(rows, core.req.provider, core.req.reference, o.pick);
      ReferenceRank(core, None, found, rows);
      SoloAdvances(Contents(), call, FindReference(core, None), o);
      if found.None? {
        reply := StoreAndReturn(core, REJECTED, REFERENCE_NOT_FOUND, call, o);
        return;
      }
      var ref := rows[found.value];
      var mismatch := ValidateReference(core, ref.core);
      if mismatch.Some? {
        reply := StoreAndReturn(core, REJECTED, mismatch.value, call, o);
      } else if ref.state.status == PENDING || ref.state.status == PENDING_REFERENCE {
        reply := StoreAndReturn(core, PENDING_REFERENCE, NO_FAILURE, call, o);
      } else if ref.state.status != PROCESSED {
        reply := StoreAndReturn(core, REJECTED, REFERENCE_NOT_SUCCESSFUL, call, o);
      } else {
        reply := ReverseDirectly(core, found.value, o);
      }
    }

    method ReverseDirectly(core: Core, ref: nat, o: Oracle) returns (reply: Reply)
      requires Reversal(core.kind) && core.req.wallet != "" && core.result.None? && ref < |rows|
      modifies this`wallets, this`rows, this`ledger, this`outbox
      ensures Outcome(Contents(), Done(reply)) ==
              Solo(old(Contents()), Process(core.req, core.key), CheckReversed(core, None, ref, old(rows)[ref]), o)
    {
      ghost var call := Process(core.req, core.key);
      WalletStepRank(Contents(), call, CheckReversed(core, None, ref, rows[ref]), o);
      SoloAdvances(Contents(), call, CheckReversed(core, None, ref, rows[ref]), o);
      var reversed := !o.blind && HasSuccessfulReversal(rows, ref);
      var dir := ReversalDirection(core.kind, rows[ref].core.kind);
      if reversed {
        reply := StoreAndReturn(core, REJECTED, DOUBLE_REVERSAL, call, o);
      } else if !ReversalValueMatches(core.amount, rows[ref].core.amount) {
        reply := StoreAndReturn(core, REJECTED, REVERSAL_VALUE_MISMATCH, call, o);
      } else if dir.None? {
        reply := StoreAndReturn(core, REJECTED, INVALID_REFERENCE_TYPE, call, o);
      } else {
        reply := MoveMoney(core, dir.value, Some(ref), o);
      }
    }

    /** The part of ProcessTransaction behind the two checks. */
    method ProcessNew(req: Request, key: string, o: Oracle) returns (reply: Reply)
      modifies this`wallets, this`rows, this`ledger, this`outbox
      ensures Outcome(Contents(), Done(reply)) == Solo(old(Contents()), Process(req, key), Dispatch(req, key), o)
    {
      var prepared := Prepare(req, key);
      if prepared.Failure? {
        SoloDone(Contents(), Process(req, key), Refused(prepared.error), o);
        return Refused(prepared.error);
      }
      var core := prepared.value;
      if core.kind == BET {
        reply := MoveMoney(core, DEBIT, None, o);
      } else if core.kind == WIN {
        reply := ProcessWin(core, o);
      } else if core.kind == LOSS {
        reply := ProcessLoss(core, o);
      } else if req.reference == "" {
        reply := StoreAndReturn(core, REJECTED, MISSING_REFERENCE, Process(req, key), o);
      } else {
        reply := ProcessReversal(core, o);
      }
    }

    method ProcessUnderKey(req: Request, key: string, o: Oracle) returns (reply: Reply)
      modifies this`wallets, this`rows, this`ledger, this`outbox
      ensures Outcome(Contents(), Done(reply)) == Solo(old(Contents()), Process(req, key), FindByKey, o)
    {
      ghost var call := Process(req, key);
      var existing := FindKey(rows, req.provider, key);
      if existing.Some? && rows[existing.value].core.req != req {
        reply := Refused(PayloadConflict);
        SoloAdvances(Contents(), call, FindByKey, o);
        SoloDone(Contents(), call, reply, o);
      } else if existing.Some? {
        SoloAdvances(Contents(), call, FindByKey, o);
        reply := HandleReplay(existing.value, call, o);
      } else {
        SoloAdvances(Contents(), call, FindByKey, o);
        reply := ProcessUnknown(req, key, o);
      }
    }

    method ProcessUnknown(req: Request, key: string, o: Oracle) returns (reply: Reply)
      modifies this`wallets, this`rows, this`ledger, this`outbox
      ensures Outcome(Contents(), Done(reply)) == Solo(old(Contents()), Process(req, key), CheckExternal, o)
    {
      ghost var call := Process(req, key);
      DispatchRank(req, key);
      SoloAdvances(Contents(), call, CheckExternal, o);
      if ExternalUnderOtherKey(rows, req.provider, req.externalId, key) {
        reply := Refused(ExternalIDReuse);
        SoloDone(Contents(), call, reply, o);
      } else {
        reply := ProcessNew(req, key, o);
      }
    }

    /**
     ProcessTransaction does to the tables, and answers, what the step system does. Its key is the header's, else the
     body's, else provider:externalId, and its effect is what the table says.
     */
    method ProcessTransaction(req: Request, header: string, body: string, o: Oracle) returns (reply: Reply)
      requires Valid()
      modifies this
      ensures Valid() && old(run) <= run && (old(Quiet(run)) ==> Quiet(run))
      ensures Outcome(Contents(), Done(reply)) ==
              Solo(old(Contents()), Process(req, EffectiveKey(header, body, req)), FindByKey, o)
      ensures var key := if header != "" then header else if body != "" then body
                         else req.provider + ":" + req.externalId;
              ProcessTable(old(Contents()), Contents(), reply, req, key, o.blind)
    {
      var key := EffectiveKey(header, body, req);
      ReachableSound(run);
      ProcessProof(Contents(), req, key, o);
      ghost var extended := CallExtends(run, Process(req, key), o);
      reply := ProcessUnderKey(req, key, o);
      run := extended;
    }

    // -------------------------------------------------------------- ResolvePendingReference

    /** resolveRejectTx and resolveRejectInPlace: settle the parked row as REJECTED. */
    method ResolveReject(id: nat, failure: FailureCode)
      requires id < |rows|
      modifies this`rows, this`outbox
      ensures Contents() == Apply(old(Contents()), Settle(id, REJECTED, failure, None, None))
    {
      UpdateStatusTx(id, REJECTED, failure);
      CreateOutboxEventsTx(StatusEvents(id, rows[id]));
    }

    method ResolveRefuse(id: nat, core: Core, failure: FailureCode, ghost o: Oracle) returns (reply: Reply)
      requires id < |rows|
      modifies this`rows, this`outbox
      ensures Outcome(Contents(), Done(reply)) == Solo(old(Contents()), Resolve(id), Refuse(core, Some(id), failure), o)
    {
      var wallet := rows[id].core.req.wallet;
      SoloCommit(Contents(), Resolve(id), Settle(id, REJECTED, failure, None, None), Return, o);
      ResolveReject(id, failure);
      reply := ReadBalance(id, REJECTED, wallet, false, Resolve(id), o);
    }

    /** Status, internal reference, ledger entry and events of a parked row whose balance change has been made. */
    method Settling(saved: Store, id: nat, job: Job, change: BalanceChange) returns (ok: bool)
      requires id < |saved.rows| && job.parked == Some(id) && job.ref.Some? && Reversal(job.core.kind)
      requires saved.rows[id].core == job.core && saved.rows[id].state.ref.None?
      requires saved.rows[id].state.status != PROCESSED
      requires job.core.req.wallet in saved.wallets
      requires Contents() == Charged(saved, job.core.req.wallet, change.after)
      modifies this`wallets, this`rows, this`ledger, this`outbox
      ensures ok <==> Admits(saved, MoveWrite(job, change))
      ensures Contents() == if ok then Apply(saved, MoveWrite(job, change)) else saved
    {
      var wallet, ref := job.core.req.wallet, job.ref.value;
      UpdateStatusTx(id, PROCESSED, NO_FAILURE);
      StatusKeepsReversals(saved.rows, rows, id, ref);
      ok := SetInternalReferenceTx(id, ref);
      if !ok {
        Rollback(saved);
        return;
      }
      CreateLedgerEntryTx(Entry(wallet, id, job.dir, job.core.amount, change.before, change.after));
      CreateOutboxEventsTx(MoveEvents(id, job.core.amount, Move(wallet, job.dir, job.core.amount, change)));
    }

    /** The wallet refused: the claim is released, and the rejection is written in a new transaction. */
    method ParkedRefused(id: nat, job: Job, e: WalletError, ghost o: Oracle) returns (reply: Reply)
      requires id < |rows| && job.parked == Some(id)
      modifies this`rows, this`outbox
      ensures Outcome(Contents(), Done(reply)) == Solo(old(Contents()), Resolve(id), OnWalletError(job, e), o)
    {
      var failure := WalletFailure(job.core.kind, e);
      SoloCommit(Contents(), Resolve(id), Settle(id, REJECTED, failure, None, None),
        Unclaimed(Some(InsufficientFunds)), o);
      ResolveReject(id, failure);
      reply := Refused(InsufficientFunds);
      SoloDone(Contents(), Resolve(id), reply, o);
    }

    /** The balance has changed in this transaction; settle the row. */
    method BookParked(saved: Store, id: nat, job: Job, change: BalanceChange, ghost o: Oracle) returns (reply: Reply)
      requires id < |saved.rows| && job.parked == Some(id) && job.ref.Some? && Reversal(job.core.kind)
      requires saved.rows[id].core == job.core && saved.rows[id].state.ref.None?
      requires saved.rows[id].state.status != PROCESSED
      requires job.core.req.wallet in saved.wallets
      requires Contents() == Charged(saved, job.core.req.wallet, change.after)
      modifies this`wallets, this`rows, this`ledger, this`outbox
      ensures Outcome(Contents(), Done(reply)) == Solo(saved, Resolve(id), Commit(MoveWrite(job, change), Return), o)
    {
      SoloCommit(saved, Resolve(id), MoveWrite(job, change), Return, o);
      var ok := Settling(saved, id, job, change);
      if ok {
        reply := Answer(id, PROCESSED, Some(change.after), false);
      } else {
        reply := Refused(DatabaseFailure);
        SoloDone(saved, Resolve(id), reply, o);
      }
    }

    /** The wallet change of a parked row, and what follows it. */
    method SettleParked(id: nat, dir: Direction, ref: nat, ghost o: Oracle) returns (reply: Reply)
      requires id < |rows| && rows[id].state.ref.None? && rows[id].state.status != PROCESSED
      requires Reversal(rows[id].core.kind) && rows[id].core.req.wallet != ""
      modifies this`wallets, this`rows, this`ledger, this`outbox
      ensures Outcome(Contents(), Done(reply)) ==
              Solo(old(Contents()), Resolve(id), LockWallet(Job(old(rows)[id].core, dir, Some(ref), Some(id))), o)
    {
      var core, saved := rows[id].core, Contents();
      var job := Job(core, dir, Some(ref), Some(id));
      SoloLock(saved, Resolve(id), job, o);
      var change := ApplyBalanceChange(core.req.wallet, core.amount, dir);
      if change.Failure? {
        assert AfterLock(saved, job) == OnWalletError(job, change.error);
        reply := ParkedRefused(id, job, change.error, o);
      } else {
        assert AfterLock(saved, job) == Commit(MoveWrite(job, change.value), Return);
        reply := BookParked(saved, id, job, change.value, o);
      }
    }

    method ReverseParked(id: nat, ref: nat, o: Oracle) returns (reply: Reply)
      requires id < |rows| && rows[id].state.ref.None? && rows[id].state.status != PROCESSED
      requires Reversal(rows[id].core.kind) && rows[id].core.req.wallet != "" && ref < |rows|
      modifies this`wallets, this`rows, this`ledger, this`outbox
      ensures Outcome(Contents(), Done(reply)) ==
              Solo(old(Contents()), Resolve(id), CheckReversed(old(rows)[id].core, Some(id), ref, old(rows)[ref]), o)
    {
      var core := rows[id].core;
      WalletStepRank(Contents(), Resolve(id), CheckReversed(core, Some(id), ref, rows[ref]), o);
      SoloAdvances(Contents(), Resolve(id), CheckReversed(core, Some(id), ref, rows[ref]), o);
      var reversed := !o.blind && HasSuccessfulReversal(rows, ref);
      var dir := ReversalDirection(core.kind, rows[ref].core.kind);
      if reversed {
        reply := ResolveRefuse(id, core, DOUBLE_REVERSAL, o);
      } else if !ReversalValueMatches(core.amount, rows[ref].core.amount) {
        reply := ResolveRefuse(id, core, REVERSAL_VALUE_MISMATCH, o);
      } else if dir.None? {
        reply := ResolveRefuse(id, core, INVALID_REFERENCE_TYPE, o);
      } else {
        reply := SettleParked(id, dir.value, ref, o);
      }
    }

    /** The claimed row has attempts left: look its reference up. */
    method ResolveClaimed(id: nat, o: Oracle) returns (reply: Reply)
      requires id < |rows| && rows[id].state.ref.None? && rows[id].state.status == PENDING_REFERENCE
      requires Reversal(rows[id].core.kind) && rows[id].core.req.wallet != ""
      modifies this`wallets, this`rows, this`ledger, this`outbox
      ensures Outcome(Contents(), Done(reply)) ==
              Solo(old(Contents()), Resolve(id), FindReference(old(rows)[id].core, Some(id)), o)
    {
      var core := rows[id].core;
      var found := FindExternal(rows, core.req.provider, core.req.reference, o.pick);
      ReferenceRank(core, Some(id), found, rows);
      SoloAdvances(Contents(), Resolve(id), FindReference(core, Some(id)), o);
      if found.None? {
        reply := RejectLost(id, o);
      } else if rows[found.value].state.status == PENDING || rows[found.value].state.status == PENDING_REFERENCE {
        SoloCommit(Contents(), Resolve(id), Wait(id), Return, o);
        IncrementRefAttemptsTx(id);
        reply := Answer(id, PENDING_REFERENCE, None, false);
      } else if rows[found.value].state.status == PROCESSED {
        reply := ReverseParked(id, found.value, o);
      } else {
        reply := ResolveRefuse(id, core, REFERENCE_NOT_SUCCESSFUL, o);
      }
    }

    /** No row matches the reference: count the attempt, then reject in a second transaction. */
    method RejectLost(id: nat, ghost o: Oracle) returns (reply: Reply)
      requires id < |rows|
      modifies this`rows, this`outbox
      ensures Outcome(Contents(), Done(reply)) == Solo(old(Contents()), Resolve(id), Commit(Wait(id), RejectNext), o)
    {
      ghost var st := Contents();
      IncrementRefAttemptsTx(id);
      SoloLost(st, id, o);
      SoloCommit(Contents(), Resolve(id), Settle(id, REJECTED, REFERENCE_NOT_FOUND, None, None), Unclaimed(None), o);
      var wallet := rows[id].core.req.wallet;
      ResolveReject(id, REFERENCE_NOT_FOUND);
      reply := ReadBalance(id, REJECTED, wallet, false, Resolve(id), o);
    }

    method ResolveRow(id: nat, o: Oracle) returns (reply: Reply)
      requires id < |rows| && rows[id].state.status == PENDING_REFERENCE ==>
                 rows[id].state.ref.None? && Reversal(rows[id].core.kind) && rows[id].core.req.wallet != ""
      modifies this`wallets, this`rows, this`ledger, this`outbox
      ensures Outcome(Contents(), Done(reply)) == Solo(old(Contents()), Resolve(id), FindParked, o)
    {
      SoloAdvances(Contents(), Resolve(id), FindParked, o);
      if id >= |rows| {
        reply := Refused(NotFound);
        SoloDone(Contents(), Resolve(id), reply, o);
      } else if rows[id].state.status != PENDING_REFERENCE {
        reply := Answer(id, rows[id].state.status, None, false);
        SoloDone(Contents(), Resolve(id), reply, o);
      } else {
        SoloAdvances(Contents(), Resolve(id), Claim(rows[id]), o);
        if rows[id].state.attempts >= MAX_REF_ATTEMPTS {
          reply := ResolveRefuse(id, rows[id].core, REFERENCE_NOT_FOUND, o);
        } else {
          reply := ResolveClaimed(id, o);
        }
      }
    }

    /**
     ResolvePendingReference does to the tables, and answers, what the step system does. It waits as long as no row that
     the reference matches is settled; its whole effect is what the table says.
     */
    method ResolvePendingReference(id: nat, o: Oracle) returns (reply: Reply)
      requires Valid()
      modifies this
      ensures Valid() && old(run) <= run && (old(Quiet(run)) ==> Quiet(run))
      ensures Outcome(Contents(), Done(reply)) == Solo(old(Contents()), Resolve(id), FindParked, o)
      ensures Waits(old(Contents()), id) ==> KeepsWaiting(old(Contents()), Contents(), reply, id)
      ensures ResolveTable(old(Contents()), Contents(), reply, id, o.blind)
    {
      ReachableInv(run);
      if Waits(Contents(), id) { WaitProof(Contents(), id, o); }
      ResolveProof(Contents(), id, o);
      ghost var extended := CallExtends(run, Resolve(id), o);
      assert id < |rows| ==> RowOk(rows, rows[id]);
      reply := ResolveRow(id, o);
      run := extended;
    }

    // -------------------------------------------------------------- CreateWallet

    /** CreateWallet with a freshly generated identifier: its effect is what the table says. */
    method CreateWallet(player: string, provider: string, initial: Money, o: Oracle) returns (reply: Reply)
      requires Valid() && !Blank(o.walletId) && o.walletId !in wallets
      modifies this
      ensures Valid() && old(run) <= run && (old(Quiet(run)) ==> Quiet(run))
      ensures Outcome(Contents(), Done(reply)) ==
                Solo(old(Contents()), Create(player, provider, initial), FindWallet, o)
      ensures CreateTable(old(Contents()), Contents(), reply, player, provider, initial, o.walletId)
    {
      CreateProof(Contents(), player, provider, initial, o);
      ghost var extended := CallExtends(run, Create(player, provider, initial), o);
      reply := OpenWallet(player, provider, initial, o);
      run := extended;
    }

    method OpenWallet(player: string, provider: string, initial: Money, o: Oracle) returns (reply: Reply)
      requires !Blank(o.walletId) && o.walletId !in wallets
      modifies this`wallets, this`rows, this`ledger, this`outbox
      ensures Outcome(Contents(), Done(reply)) ==
                Solo(old(Contents()), Create(player, provider, initial), FindWallet, o)
    {
      ghost var call := Create(player, provider, initial);
      var checked := CheckNewWallet(Contents(), player, provider, initial, o.walletId);
      SoloAdvances(Contents(), call, FindWallet, o);
      if checked.Done? {
        SoloDone(Contents(), call, checked.reply, o);
        return checked.reply;
      }
      SoloCommit(Contents(), call, Open(o.walletId, player, provider, initial), Return, o);
      WriteOpening(o.walletId, player, provider, initial);
      reply := Created(o.walletId);
      SoloDone(Contents(), call, reply, o);
    }

    /** The inserts of CreateWallet: wallet, opening row, ledger entry and events. */
    method WriteOpening(wallet: string, player: string, provider: string, initial: Money)
      modifies this`wallets, this`rows, this`ledger, this`outbox
      ensures Contents() == Apply(old(Contents()), Open(wallet, player, provider, initial))
    {
      wallets := wallets[wallet := WalletRow(player, provider, initial, 1)];
      if initial.amount != 0 {
        var opening := |rows|;
        rows := rows + [OpeningRow(wallet, player, initial)];
        CreateLedgerEntryTx(Entry(wallet, opening, CREDIT, initial, Money(0, initial.currency), initial));
        CreateOutboxEventsTx(MoveEvents(opening, initial, OpeningMove(wallet, initial)));
      }
    }
  }

  // ---------------------------------------------------------------- steps that the procedures merge

  lemma SoloLost(st: Store, id: nat, o: Oracle)
    requires id < |st.rows|
    ensures Solo(st, Resolve(id), Commit(Wait(id), RejectNext), o) ==
            Solo(Apply(st, Wait(id)), Resolve(id),
              Commit(Settle(id, REJECTED, REFERENCE_NOT_FOUND, None, None), Unclaimed(None)), o)
  {
  }

  /** Setting the status alone makes no row a successful reversal. */
  lemma StatusKeepsReversals(rows: seq<Row>, rows': seq<Row>, id: nat, ref: nat)
    requires id < |rows| && rows[id].state.ref.None? && |rows'| == |rows| && rows'[id].state.ref.None?
    requires forall i :: 0 <= i < |rows| && i != id ==> rows'[i] == rows[i]
    ensures HasSuccessfulReversal(rows', ref) <==> HasSuccessfulReversal(rows, ref)
  {
    if HasSuccessfulReversal(rows, ref) {
      var i :| 0 <= i < |rows| && Reverses(rows[i], ref);
      assert Reverses(rows'[i], ref);
    }
    if HasSuccessfulReversal(rows', ref) {
      var i :| 0 <= i < |rows'| && Reverses(rows'[i], ref);
      assert Reverses(rows[i], ref);
    }
  }

  // ---------------------------------------------------------------- what the tables then satisfy

  /**
   However many calls were made, one after the other, every wallet balance is its credits minus its debits, external
   identifiers are unique, and exactly the processed rows that move money have a ledger entry.
   */
  lemma SequentialBooks(db: Database, wallet: string)
    requires db.Valid() && Quiet(db.run) && wallet in db.wallets
    ensures UniqueExternal(db.rows)
    ensures db.wallets[wallet].balance.amount as int ==
              SumOf(db.ledger, wallet, CREDIT) - SumOf(db.ledger, wallet, DEBIT)
    ensures forall i :: 0 <= i < |db.rows| ==>
              (HasEntry(db.ledger, i) <==> db.rows[i].state.status == PROCESSED && db.rows[i].core.kind != LOSS)
  {
    QuietRunsQualify(db.run);
    ReachableInv(db.run);
    ConservationOf(db.Contents(), wallet);
    forall i | 0 <= i < |db.rows|
      ensures HasEntry(db.ledger, i) <==> db.rows[i].state.status == PROCESSED && db.rows[i].core.kind != LOSS
    {
      RowLedgerOutboxAgree(db.run, i);
    }
  }
}
