/** The procedures, run alone, obey the decision tables. */
module TableProofs {
  import opened Results
  import opened MoneyValue
  import opened WalletAggregate
  import opened Transactions
  import opened Tables
  import opened Machine
  import opened Invariants
  import opened SystemProofs
  import opened ExternalIds
  import opened Termination
  import opened SoloRuns
  import opened DecisionTables

  /** What the tables of a reachable store satisfy. */
  ghost predicate Sound(st: Store) {
    RowsOk(st.rows) && WalletsOk(st.wallets) && WalletsExist(st) && KeysUnique(st.rows)
  }

  /** A prepared transaction whose key is free. */
  ghost predicate Ready(st: Store, c: Core) {
    TxOk(c) && NoKey(st.rows, c.req, c.key)
  }

  lemma TakenIsReversed(rows: seq<Row>, r: nat)
    ensures Taken(rows, r) <==> HasSuccessfulReversal(rows, r)
  {
    if Taken(rows, r) {
      var i :| 0 <= i < |rows| && rows[i].core.kind in {REFUND, ROLLBACK}
        && rows[i].state.status == PROCESSED && rows[i].state.ref == Some(r);
      assert Reverses(rows[i], r);
    }
    if HasSuccessfulReversal(rows, r) {
      var i :| 0 <= i < |rows| && Reverses(rows[i], r);
      assert rows[i].core.kind in {REFUND, ROLLBACK};
    }
  }

  // ---------------------------------------------------------------- rows without money

  lemma RejectTable(st: Store, call: Call, c: Core, code: FailureCode, o: Oracle)
    requires Ready(st, c)
    ensures var out := Solo(st, call, Reject(c, code), o);
            out.reply.Done? && Rejects(st, out.store, out.reply.reply, c, code)
  {
    var w := Insert(RowOf(c, REJECTED, code, None), None);
    SoloCommit(st, call, w, Return, o);
    if c.req.wallet in st.wallets {
      SoloReport(Apply(st, w), call, Committed(st, w, Return), o);
    } else {
      SoloDone(st, call, Refused(DatabaseFailure), o);
    }
    assert c == Core(c.req, c.key, c.kind, c.amount, None);
  }

  lemma ParkTable(st: Store, call: Call, c: Core, o: Oracle)
    requires Ready(st, c)
    ensures var out := Solo(st, call, Commit(Insert(RowOf(c, PENDING_REFERENCE, NO_FAILURE, None), None), Return), o);
            out.reply.Done? && Parks(st, out.store, out.reply.reply, c)
  {
    var w := Insert(RowOf(c, PENDING_REFERENCE, NO_FAILURE, None), None);
    SoloCommit(st, call, w, Return, o);
    if c.req.wallet in st.wallets {
      SoloDone(Apply(st, w), call, AnswerFor(st, w), o);
    } else {
      SoloDone(st, call, Refused(DatabaseFailure), o);
    }
  }

  lemma LossProof(st: Store, call: Call, c: Core, o: Oracle)
    requires Ready(st, c)
    ensures var out := Solo(st, call, ReadLoss(c), o); out.reply.Done? && LossTable(st, out.store, out.reply.reply, c)
  {
    SoloAdvances(st, call, ReadLoss(c), o);
    if c.req.wallet in st.wallets {
      var w := Insert(LossRow(c, st.wallets[c.req.wallet].balance), None);
      SoloCommit(st, call, w, Return, o);
      SoloReport(Apply(st, w), call, Committed(st, w, Return), o);
    } else {
      SoloDone(st, call, Refused(NotFound), o);
    }
  }

  // ---------------------------------------------------------------- balance changes

  /** What the wallet's refusal of a new transaction stores. */
  lemma WalletErrorTable(st: Store, call: Call, job: Job, e: WalletError, o: Oracle)
    requires job.parked.None? && Ready(st, job.core) && (e == InsufficientBalance || e == Arithmetic(Overflow))
    requires job.core.req.wallet in st.wallets
    ensures var out, c := Solo(st, call, OnWalletError(job, e), o), job.core;
            var error := if c.kind in {REFUND, ROLLBACK} then WalletRefused else InsufficientFunds;
            var short := if c.kind in {REFUND, ROLLBACK} then REVERSAL_INSUFFICIENT_BALANCE else INSUFFICIENT_BALANCE;
            && out.reply.Done?
            && if e == InsufficientBalance then
                 WalletRejects(st, out.store, out.reply.reply, c, short, Some(st.wallets[c.req.wallet].balance), error)
               else WalletRejects(st, out.store, out.reply.reply, c, WALLET_ERROR, None, error)
  {
    var c, pc := job.core, OnWalletError(job, e);
    if e == InsufficientBalance {
      SoloAdvances(st, call, pc, o);
      var w := Insert(RejectedRow(st, c, pc.failure), None);
      SoloCommit(st, call, w, ReturnError(pc.error), o);
      SoloDone(Apply(st, w), call, Refused(pc.error), o);
    } else {
      assert c == Core(c.req, c.key, c.kind, c.amount, None);
      SoloCommit(st, call, pc.write, pc.after, o);
      SoloDone(Apply(st, pc.write), call, Refused(pc.after.error), o);
    }
  }

  /** Without a wallet nothing can be stored. */
  lemma NoWalletTable(st: Store, call: Call, job: Job, o: Oracle)
    requires job.parked.None? && Ready(st, job.core) && job.core.req.wallet !in st.wallets
    ensures var out, c := Solo(st, call, LockWallet(job), o), job.core;
            var error := if c.kind in {REFUND, ROLLBACK} then WalletRefused else InsufficientFunds;
            out.reply.Done? && Unchanged(st, out.store, out.reply.reply, error)
  {
    SoloLock(st, call, job, o);
    var pc := OnWalletError(job, WalletNotFound);
    SoloCommit(st, call, pc.write, pc.after, o);
    SoloDone(st, call, Refused(pc.after.error), o);
  }

  lemma MoveTable(st: Store, call: Call, job: Job, change: BalanceChange, o: Oracle)
    requires job.parked.None? && Ready(st, job.core) && job.core.req.wallet in st.wallets
    requires WalletRowOk(st.wallets[job.core.req.wallet])
    requires Change(st.wallets[job.core.req.wallet], job.dir, job.core.amount) == Success(change)
    requires job.ref.Some? ==> job.core.kind in {REFUND, ROLLBACK}
    ensures var out := Solo(st, call, Commit(MoveWrite(job, change), Return), o);
            out.reply.Done? && Moves(st, out.store, out.reply.reply, job.core, job.dir, job.ref)
  {
    var w := MoveWrite(job, change);
    if job.ref.Some? { TakenIsReversed(st.rows, job.ref.value); }
    SoloCommit(st, call, w, Return, o);
    if job.ref.Some? && Taken(st.rows, job.ref.value) {
      SoloDone(st, call, Refused(DoubleReversal), o);
    } else {
      SoloDone(Apply(st, w), call, AnswerFor(st, w), o);
    }
  }

  lemma LockTable(st: Store, call: Call, job: Job, o: Oracle)
    requires job.parked.None? && Ready(st, job.core) && job.core.amount.amount > 0
    requires job.core.req.wallet in st.wallets && WalletRowOk(st.wallets[job.core.req.wallet])
    requires job.ref.Some? ==> job.core.kind in {REFUND, ROLLBACK}
    ensures var out, c := Solo(st, call, LockWallet(job), o), job.core;
            var error := if c.kind in {REFUND, ROLLBACK} then WalletRefused else InsufficientFunds;
            var short := if c.kind in {REFUND, ROLLBACK} then REVERSAL_INSUFFICIENT_BALANCE else INSUFFICIENT_BALANCE;
            && out.reply.Done?
            && if job.dir == DEBIT then Debits(st, out.store, out.reply.reply, c, job.ref, short, error)
               else Credits(st, out.store, out.reply.reply, c, job.ref, error)
  {
    SoloLock(st, call, job, o);
    var change := Change(st.wallets[job.core.req.wallet], job.dir, job.core.amount);
    if change.Success? {
      MoveTable(st, call, job, change.value, o);
    } else {
      WalletErrorTable(st, call, job, change.error, o);
    }
  }

  lemma BetProof(st: Store, call: Call, c: Core, o: Oracle)
    requires Sound(st) && Ready(st, c) && c.kind == BET
    ensures var out := Solo(st, call, LockWallet(Job(c, DEBIT, None, None)), o);
            out.reply.Done? && BetTable(st, out.store, out.reply.reply, c)
  {
    if c.req.wallet in st.wallets {
      LockTable(st, call, Job(c, DEBIT, None, None), o);
    } else {
      NoWalletTable(st, call, Job(c, DEBIT, None, None), o);
    }
  }

  lemma WinProof(st: Store, call: Call, c: Core, o: Oracle)
    requires Sound(st) && Ready(st, c) && c.kind == WIN
    ensures var out := Solo(st, call, LockWallet(Job(c, CREDIT, None, None)), o);
            out.reply.Done? && PlainWin(st, out.store, out.reply.reply, c)
  {
    if c.req.wallet in st.wallets {
      LockTable(st, call, Job(c, CREDIT, None, None), o);
    } else {
      NoWalletTable(st, call, Job(c, CREDIT, None, None), o);
    }
  }

  // ---------------------------------------------------------------- references

  lemma FirstMismatch(c: Core, ref: Core)
    requires ref.req.provider == c.req.provider
    ensures ValidateReference(c, ref).None? <==> Agrees(c, ref)
    ensures ValidateReference(c, ref).Some? ==> Mismatch(c, ref, ValidateReference(c, ref).value)
  {
  }

  lemma WinAgainstProof(st: Store, call: Call, c: Core, r: nat, o: Oracle)
    requires Sound(st) && Ready(st, c) && c.kind == WIN && r < |st.rows|
    requires Matches(st.rows[r], c.req.provider, c.req.reference)
    ensures var out := Solo(st, call, OnReferenceDirect(c, Some(r), st.rows), o);
            out.reply.Done? && WinAgainst(st, out.store, out.reply.reply, c, st.rows[r])
  {
    var ref := st.rows[r].core;
    FirstMismatch(c, ref);
    assert ref.(req := ref.req.(provider := c.req.provider)) == ref;
    if ref.kind != BET {
      RejectTable(st, call, c, REFERENCE_NOT_FOUND, o);
    } else if !Agrees(c, ref) {
      RejectTable(st, call, c, ValidateReference(c, ref).value, o);
    } else {
      WinProof(st, call, c, o);
    }
  }

  lemma CheckTable(st: Store, call: Call, c: Core, r: nat, o: Oracle)
    requires Sound(st) && Ready(st, c) && c.kind in {REFUND, ROLLBACK} && r < |st.rows|
    requires Agrees(c, st.rows[r].core) && st.rows[r].state.status == PROCESSED
    ensures var out := Solo(st, call, CheckReversed(c, None, r, st.rows[r]), o);
            out.reply.Done? && ReversalAgainst(st, out.store, out.reply.reply, c, r, o.blind)
  {
    var pc, ref := CheckReversed(c, None, r, st.rows[r]), st.rows[r];
    WalletStepRank(st, call, pc, o);
    SoloAdvances(st, call, pc, o);
    assert RowOk(st.rows, ref) && c.req.wallet in st.wallets;
    CheckLeads(st, c, None, r, o);
    if Taken(st.rows, r) && !o.blind {
      RejectTable(st, call, c, DOUBLE_REVERSAL, o);
    } else if c.amount.amount != ref.core.amount.amount {
      RejectTable(st, call, c, REVERSAL_VALUE_MISMATCH, o);
    } else if c.kind == ROLLBACK && ref.core.kind !in {BET, WIN, REFUND} {
      RejectTable(st, call, c, INVALID_REFERENCE_TYPE, o);
    } else {
      var dir := if c.kind == REFUND || ref.core.kind == BET then CREDIT else DEBIT;
      LockTable(st, call, Job(c, dir, Some(r), None), o);
    }
  }

  lemma ReversalAgainstProof(st: Store, call: Call, c: Core, r: nat, o: Oracle)
    requires Sound(st) && Ready(st, c) && c.kind in {REFUND, ROLLBACK} && r < |st.rows|
    requires Matches(st.rows[r], c.req.provider, c.req.reference)
    ensures var out := Solo(st, call, OnReferenceDirect(c, Some(r), st.rows), o);
            out.reply.Done? && ReversalAgainst(st, out.store, out.reply.reply, c, r, o.blind)
  {
    var ref := st.rows[r];
    FirstMismatch(c, ref.core);
    if !Agrees(c, ref.core) {
      RejectTable(st, call, c, ValidateReference(c, ref.core).value, o);
    } else if ref.state.status in {PENDING, PENDING_REFERENCE} {
      ParkTable(st, call, c, o);
    } else if ref.state.status == PROCESSED {
      CheckTable(st, call, c, r, o);
    } else {
      RejectTable(st, call, c, REFERENCE_NOT_SUCCESSFUL, o);
    }
  }

  lemma ReferringProof(st: Store, call: Call, c: Core, o: Oracle)
    requires Sound(st) && Ready(st, c) && c.req.reference != "" && c.kind in {WIN, REFUND, ROLLBACK}
    ensures var out := Solo(st, call, FindReference(c, None), o);
            out.reply.Done? && ReferringTable(st, out.store, out.reply.reply, c, o.blind)
  {
    var found := FindExternal(st.rows, c.req.provider, c.req.reference, o.pick);
    ReferenceRank(c, None, found, st.rows);
    SoloAdvances(st, call, FindReference(c, None), o);
    if found.None? {
      RejectTable(st, call, c, REFERENCE_NOT_FOUND, o);
      assert forall r :: 0 <= r < |st.rows| && Matches(st.rows[r], c.req.provider, c.req.reference) ==>
        HasExternal(st.rows[r].core, c.req.provider, c.req.reference);
    } else {
      assert Matches(st.rows[found.value], c.req.provider, c.req.reference);
      if c.kind == WIN {
        WinAgainstProof(st, call, c, found.value, o);
      } else {
        ReversalAgainstProof(st, call, c, found.value, o);
      }
    }
  }

  // ---------------------------------------------------------------- ProcessTransaction

  lemma NewProof(st: Store, req: Request, key: string, o: Oracle)
    requires Sound(st) && key != "" && NoKey(st.rows, req, key)
    ensures var out := Solo(st, Process(req, key), Dispatch(req, key), o);
            out.reply.Done? && NewTable(st, out.store, out.reply.reply, req, key, o.blind)
  {
    var prepared, call := Prepare(req, key), Process(req, key);
    if prepared.Failure? {
      SoloDone(st, call, Refused(prepared.error), o);
      RefusedTable(st, req, key, o.blind);
    } else {
      KindProof(st, prepared.value, o);
      var out := Solo(st, call, Dispatch(req, key), o);
      PreparedTable(st, out.store, out.reply.reply, prepared.value, o.blind);
    }
  }

  lemma RefusedTable(st: Store, req: Request, key: string, blind: bool)
    requires key != "" && Prepare(req, key).Failure?
    ensures NewTable(st, st, Refused(Prepare(req, key).error), req, key, blind)
  {
  }

  lemma PreparedTable(st: Store, out: Store, reply: Reply, c: Core, blind: bool)
    requires Prepare(c.req, c.key) == Success(c) && KindTable(st, out, reply, c, blind)
    requires c.kind == KindNamed(c.req.kind)
    ensures NewTable(st, out, reply, c.req, c.key, blind)
  {
    var m := Parse(c.req.amount, c.req.currency).value;
    assert c == Core(c.req, c.key, KindNamed(c.req.kind), m, None);
  }

  lemma KindProof(st: Store, c: Core, o: Oracle)
    requires Sound(st) && Ready(st, c) && Prepare(c.req, c.key) == Success(c)
    ensures var out := Solo(st, Process(c.req, c.key), Dispatch(c.req, c.key), o);
            && out.reply.Done? && KindTable(st, out.store, out.reply.reply, c, o.blind)
            && c.kind == KindNamed(c.req.kind)
  {
    var call := Process(c.req, c.key);
    match c.kind {
      case BET => BetProof(st, call, c, o);
      case LOSS => LossProof(st, call, c, o);
      case WIN => if c.req.reference == "" { WinProof(st, call, c, o); } else { ReferringProof(st, call, c, o); }
      case REFUND =>
        if c.req.reference == "" { RejectTable(st, call, c, MISSING_REFERENCE, o); }
        else { ReferringProof(st, call, c, o); }
      case ROLLBACK =>
        if c.req.reference == "" { RejectTable(st, call, c, MISSING_REFERENCE, o); }
        else { ReferringProof(st, call, c, o); }
    }
  }

  lemma ReplayProof(st: Store, req: Request, key: string, i: nat, o: Oracle)
    requires Sound(st) && key != "" && i < |st.rows| && HasKey(st.rows[i].core, req.provider, key)
    ensures var out := Solo(st, Process(req, key), FindByKey, o);
            out.reply.Done? && ReplayTable(st, out.store, out.reply.reply, req, i)
  {
    var call, row := Process(req, key), st.rows[i];
    var found := FindKey(st.rows, req.provider, key);
    assert SameKey(st.rows[i].core, st.rows[found.value].core);
    SoloAdvances(st, call, FindByKey, o);
    if row.core.req != req {
      SoloDone(st, call, Refused(PayloadConflict), o);
    } else if row.core.result.Some? {
      SoloDone(st, call, Answer(i, row.state.status, row.core.result, true), o);
    } else {
      SoloAdvances(st, call, ReplayBalance(i, row), o);
      SoloDone(st, call, Answer(i, row.state.status, Some(st.wallets[row.core.req.wallet].balance), true), o);
    }
  }

  lemma KnownKeyProof(st: Store, req: Request, key: string, o: Oracle)
    requires Sound(st) && key != "" && KeyKnown(st, req, key)
    ensures var out := Solo(st, Process(req, key), FindByKey, o);
            out.reply.Done? && ProcessTable(st, out.store, out.reply.reply, req, key, o.blind)
  {
    var out := Solo(st, Process(req, key), FindByKey, o);
    var j :| 0 <= j < |st.rows| && st.rows[j].core.req.provider == req.provider && st.rows[j].core.key == key;
    ReplayProof(st, req, key, j, o);
    forall i | 0 <= i < |st.rows| && st.rows[i].core.req.provider == req.provider && st.rows[i].core.key == key
      ensures ReplayTable(st, out.store, out.reply.reply, req, i)
    {
      ReplayProof(st, req, key, i, o);
    }
  }

  /** ProcessTransaction, run alone, obeys its table. */
  lemma ProcessProof(st: Store, req: Request, key: string, o: Oracle)
    requires Sound(st) && key != ""
    ensures var out := Solo(st, Process(req, key), FindByKey, o);
            out.reply.Done? && ProcessTable(st, out.store, out.reply.reply, req, key, o.blind)
  {
    var call := Process(req, key);
    if KeyKnown(st, req, key) {
      KnownKeyProof(st, req, key, o);
    } else {
      NewKey(st, req, key);
      SoloAdvances(st, call, FindByKey, o);
      DispatchRank(req, key);
      SoloAdvances(st, call, CheckExternal, o);
      KnownExternal(st, req, key);
      if ExternalKnown(st, req) {
        SoloDone(st, call, Refused(ExternalIDReuse), o);
      } else {
        NewProof(st, req, key, o);
      }
    }
  }

  lemma NewKey(st: Store, req: Request, key: string)
    requires !KeyKnown(st, req, key)
    ensures NoKey(st.rows, req, key) && FindKey(st.rows, req.provider, key).None?
  {
  }

  lemma KnownExternal(st: Store, req: Request, key: string)
    requires NoKey(st.rows, req, key) && key != ""
    ensures ExternalKnown(st, req) <==> ExternalUnderOtherKey(st.rows, req.provider, req.externalId, key)
  {
    if ExternalKnown(st, req) {
      var i :| 0 <= i < |st.rows| && Matches(st.rows[i], req.provider, req.externalId);
      assert HasExternal(st.rows[i].core, req.provider, req.externalId) && !HasKey(st.rows[i].core, req.provider, key);
    }
    if ExternalUnderOtherKey(st.rows, req.provider, req.externalId, key) {
      var i :| 0 <= i < |st.rows| && HasExternal(st.rows[i].core, req.provider, req.externalId)
        && st.rows[i].core.key != key;
      assert Matches(st.rows[i], req.provider, req.externalId);
    }
  }

  // ---------------------------------------------------------------- ResolvePendingReference

  lemma RefuseTable(st: Store, id: nat, code: FailureCode, o: Oracle)
    requires WalletsExist(st) && id < |st.rows|
    ensures var out := Solo(st, Resolve(id), Refuse(st.rows[id].core, Some(id), code), o);
            out.reply.Done? && RejectsParked(st, out.store, out.reply.reply, id, code)
  {
    var w := Settle(id, REJECTED, code, None, None);
    SoloCommit(st, Resolve(id), w, Return, o);
    SoloReport(Apply(st, w), Resolve(id), Committed(st, w, Return), o);
  }

  lemma ParkedErrorTable(st: Store, id: nat, job: Job, e: WalletError, o: Oracle)
    requires id < |st.rows| && job.core == st.rows[id].core && job.parked == Some(id)
    ensures var out := Solo(st, Resolve(id), OnWalletError(job, e), o);
            && out.reply == Done(Refused(InsufficientFunds))
            && SettlesRejected(st, out.store, id, WalletFailure(job.core.kind, e))
  {
    var w := Settle(id, REJECTED, WalletFailure(job.core.kind, e), None, None);
    SoloCommit(st, Resolve(id), w, Unclaimed(Some(InsufficientFunds)), o);
    SoloDone(Apply(st, w), Resolve(id), Refused(InsufficientFunds), o);
  }

  lemma ParkedMoveTable(st: Store, id: nat, dir: Direction, r: nat, change: BalanceChange, o: Oracle)
    requires Sound(st) && id < |st.rows| && st.rows[id].core.req.wallet in st.wallets
    requires Change(st.wallets[st.rows[id].core.req.wallet], dir, st.rows[id].core.amount) == Success(change)
    ensures var job := Job(st.rows[id].core, dir, Some(r), Some(id));
            var out := Solo(st, Resolve(id), Commit(MoveWrite(job, change), Return), o);
            out.reply.Done? && MovesParked(st, out.store, out.reply.reply, id, dir, r)
  {
    var w := MoveWrite(Job(st.rows[id].core, dir, Some(r), Some(id)), change);
    TakenIsReversed(st.rows, r);
    assert WalletRowOk(st.wallets[st.rows[id].core.req.wallet]);
    SoloCommit(st, Resolve(id), w, Return, o);
    if Taken(st.rows, r) {
      SoloDone(st, Resolve(id), Refused(DatabaseFailure), o);
    } else {
      SoloDone(Apply(st, w), Resolve(id), AnswerFor(st, w), o);
      ParkedMoved(st, id, dir, r, change);
    }
  }

  lemma ParkedMoved(st: Store, id: nat, dir: Direction, r: nat, change: BalanceChange)
    requires id < |st.rows| && st.rows[id].core.req.wallet in st.wallets && !Taken(st.rows, r)
    requires WalletRowOk(st.wallets[st.rows[id].core.req.wallet])
    requires Change(st.wallets[st.rows[id].core.req.wallet], dir, st.rows[id].core.amount) == Success(change)
    ensures var w := MoveWrite(Job(st.rows[id].core, dir, Some(r), Some(id)), change);
            MovesParked(st, Apply(st, w), AnswerFor(st, w), id, dir, r)
  {
  }

  lemma ParkedLockTable(st: Store, id: nat, dir: Direction, r: nat, o: Oracle)
    requires Sound(st) && id < |st.rows| && st.rows[id].core.req.wallet in st.wallets
    requires TxOk(st.rows[id].core) && st.rows[id].core.kind in {REFUND, ROLLBACK}
    ensures var c := st.rows[id].core;
            var out := Solo(st, Resolve(id), LockWallet(Job(c, dir, Some(r), Some(id))), o);
            && out.reply.Done?
            && if dir == CREDIT && Held(st, c.req.wallet) + c.amount.amount as int > 0x7fff_ffff_ffff_ffff then
                 SettlesRejected(st, out.store, id, WALLET_ERROR) && out.reply.reply == Refused(InsufficientFunds)
               else if dir == DEBIT && Held(st, c.req.wallet) < c.amount.amount as int then
                 && SettlesRejected(st, out.store, id, REVERSAL_INSUFFICIENT_BALANCE)
                 && out.reply.reply == Refused(InsufficientFunds)
               else MovesParked(st, out.store, out.reply.reply, id, dir, r)
  {
    var job := Job(st.rows[id].core, dir, Some(r), Some(id));
    var change := Change(st.wallets[job.core.req.wallet], dir, job.core.amount);
    assert WalletRowOk(st.wallets[job.core.req.wallet]);
    SoloLock(st, Resolve(id), job, o);
    if change.Success? {
      ParkedMoveTable(st, id, dir, r, change.value, o);
    } else {
      ParkedErrorTable(st, id, job, change.error, o);
    }
  }

  /** Where the check for an earlier reversal leads. */
  lemma CheckLeads(st: Store, c: Core, parked: Option<nat>, r: nat, o: Oracle)
    requires r < |st.rows| && c.kind in {REFUND, ROLLBACK} && c.amount.currency == st.rows[r].core.amount.currency
    ensures var ref := st.rows[r];
            var pc := OnReversedChecked(c, parked, r, ref, !o.blind && HasSuccessfulReversal(st.rows, r));
            pc == if Taken(st.rows, r) && !o.blind then Refuse(c, parked, DOUBLE_REVERSAL)
                  else if c.amount.amount != ref.core.amount.amount then Refuse(c, parked, REVERSAL_VALUE_MISMATCH)
                  else if c.kind == ROLLBACK && ref.core.kind !in {BET, WIN, REFUND} then
                    Refuse(c, parked, INVALID_REFERENCE_TYPE)
                  else if c.kind == REFUND || ref.core.kind == BET then LockWallet(Job(c, CREDIT, Some(r), parked))
                  else LockWallet(Job(c, DEBIT, Some(r), parked))
  {
    TakenIsReversed(st.rows, r);
  }

  lemma ParkedCheckTable(st: Store, id: nat, r: nat, o: Oracle)
    requires Sound(st) && id < |st.rows| && r < |st.rows| && st.rows[id].core.req.wallet in st.wallets
    requires TxOk(st.rows[id].core) && st.rows[id].core.kind in {REFUND, ROLLBACK}
    requires st.rows[r].state.status == PROCESSED
    ensures var out := Solo(st, Resolve(id), CheckReversed(st.rows[id].core, Some(id), r, st.rows[r]), o);
            out.reply.Done? && ResolveAgainst(st, out.store, out.reply.reply, id, r, o.blind)
  {
    var c, ref := st.rows[id].core, st.rows[r];
    var pc := CheckReversed(c, Some(id), r, ref);
    WalletStepRank(st, Resolve(id), pc, o);
    SoloAdvances(st, Resolve(id), pc, o);
    assert RowOk(st.rows, ref);
    CheckLeads(st, c, Some(id), r, o);
    if Taken(st.rows, r) && !o.blind {
      RefuseTable(st, id, DOUBLE_REVERSAL, o);
    } else if c.amount.amount != ref.core.amount.amount {
      RefuseTable(st, id, REVERSAL_VALUE_MISMATCH, o);
    } else if c.kind == ROLLBACK && ref.core.kind !in {BET, WIN, REFUND} {
      RefuseTable(st, id, INVALID_REFERENCE_TYPE, o);
    } else {
      ParkedLockTable(st, id, if c.kind == REFUND || ref.core.kind == BET then CREDIT else DEBIT, r, o);
    }
  }

  lemma WaitTable(st: Store, id: nat, o: Oracle)
    requires id < |st.rows| && st.rows[id].state.status == PENDING_REFERENCE
    ensures var out := Solo(st, Resolve(id), Commit(Wait(id), Return), o);
            out.reply.Done? && KeepsWaiting(st, out.store, out.reply.reply, id)
  {
    SoloCommit(st, Resolve(id), Wait(id), Return, o);
    SoloDone(Apply(st, Wait(id)), Resolve(id), Answer(id, PENDING_REFERENCE, None, false), o);
  }

  lemma ParkedReferenceTable(st: Store, id: nat, r: nat, o: Oracle)
    requires Sound(st) && id < |st.rows| && r < |st.rows| && st.rows[id].core.req.wallet in st.wallets
    requires TxOk(st.rows[id].core) && st.rows[id].core.kind in {REFUND, ROLLBACK}
    requires st.rows[id].state.status == PENDING_REFERENCE
    ensures var out := Solo(st, Resolve(id), OnReferenceDeferred(st.rows[id].core, id, Some(r), st.rows), o);
            out.reply.Done? && ResolveAgainst(st, out.store, out.reply.reply, id, r, o.blind)
  {
    if st.rows[r].state.status in {PENDING, PENDING_REFERENCE} {
      WaitTable(st, id, o);
    } else if st.rows[r].state.status == PROCESSED {
      ParkedCheckTable(st, id, r, o);
    } else {
      RefuseTable(st, id, REFERENCE_NOT_SUCCESSFUL, o);
    }
  }

  /** The row that the lookup returns decides. */
  lemma SomeMatchDecides(st: Store, id: nat, o: Oracle) returns (r: nat)
    requires Sound(st) && id < |st.rows|
    requires st.rows[id].state.status == PENDING_REFERENCE && st.rows[id].state.attempts < 10
    ensures var c, out := st.rows[id].core, Solo(st, Resolve(id), FindReference(st.rows[id].core, Some(id)), o);
            && r < |st.rows| && Matches(st.rows[r], c.req.provider, c.req.reference)
            && c.req.provider != "" && c.req.reference != "" && c.req.wallet in st.wallets
            && out.reply.Done? && ResolveAgainst(st, out.store, out.reply.reply, id, r, o.blind)
  {
    assert RowOk(st.rows, st.rows[id]);
    var c := st.rows[id].core;
    var found := FindExternal(st.rows, c.req.provider, c.req.reference, o.pick);
    ReferenceRank(c, Some(id), found, st.rows);
    SoloAdvances(st, Resolve(id), FindReference(c, Some(id)), o);
    r := found.value;
    ParkedReferenceTable(st, id, r, o);
  }

  /** While no row that the reference matches is settled, the resolver waits, whichever of them the lookup returns. */
  lemma WaitProof(st: Store, id: nat, o: Oracle)
    requires Sound(st) && Waits(st, id)
    ensures var out := Solo(st, Resolve(id), FindParked, o);
            out.reply.Done? && KeepsWaiting(st, out.store, out.reply.reply, id)
  {
    SoloAdvances(st, Resolve(id), FindParked, o);
    SoloAdvances(st, Resolve(id), Claim(st.rows[id]), o);
    var r := SomeMatchDecides(st, id, o);
  }

  lemma ClaimedProof(st: Store, id: nat, o: Oracle)
    requires Sound(st) && id < |st.rows|
    requires st.rows[id].state.status == PENDING_REFERENCE && st.rows[id].state.attempts < 10
    ensures var out := Solo(st, Resolve(id), FindReference(st.rows[id].core, Some(id)), o);
            out.reply.Done? && ResolveTable(st, out.store, out.reply.reply, id, o.blind)
  {
    var r := SomeMatchDecides(st, id, o);
  }

  /** ResolvePendingReference, run alone, obeys its table. */
  lemma ResolveProof(st: Store, id: nat, o: Oracle)
    requires Sound(st)
    ensures var out := Solo(st, Resolve(id), FindParked, o);
            out.reply.Done? && ResolveTable(st, out.store, out.reply.reply, id, o.blind)
  {
    SoloAdvances(st, Resolve(id), FindParked, o);
    if id >= |st.rows| {
      SoloDone(st, Resolve(id), Refused(NotFound), o);
    } else if st.rows[id].state.status != PENDING_REFERENCE {
      SoloDone(st, Resolve(id), Answer(id, st.rows[id].state.status, None, false), o);
    } else {
      SoloAdvances(st, Resolve(id), Claim(st.rows[id]), o);
      if st.rows[id].state.attempts >= 10 {
        RefuseTable(st, id, REFERENCE_NOT_FOUND, o);
      } else {
        ClaimedProof(st, id, o);
      }
    }
  }

  // ---------------------------------------------------------------- CreateWallet

  /** CreateWallet, run alone under a fresh identifier, obeys its table. */
  lemma CreateProof(st: Store, player: string, provider: string, initial: Money, o: Oracle)
    requires !Blank(o.walletId) && o.walletId !in st.wallets
    ensures var out := Solo(st, Create(player, provider, initial), FindWallet, o);
            out.reply.Done? && CreateTable(st, out.store, out.reply.reply, player, provider, initial, o.walletId)
  {
    var call := Create(player, provider, initial);
    var next := CheckNewWallet(st, player, provider, initial, o.walletId);
    SoloAdvances(st, call, FindWallet, o);
    if next.Done? {
      SoloDone(st, call, next.reply, o);
    } else {
      OpenTable(st, player, provider, initial, o);
    }
  }

  lemma OpenTable(st: Store, player: string, provider: string, initial: Money, o: Oracle)
    requires o.walletId !in st.wallets && initial.currency == "BRL"
    requires forall x :: x in st.wallets ==>
               st.wallets[x].player != player || st.wallets[x].provider != provider
               || st.wallets[x].balance.currency != initial.currency
    ensures var w := Open(o.walletId, player, provider, initial);
            var out := Solo(st, Create(player, provider, initial), Commit(w, Return), o);
            out.reply.Done? && Opens(st, out.store, out.reply.reply, player, provider, initial, o.walletId)
  {
    var call, w := Create(player, provider, initial), Open(o.walletId, player, provider, initial);
    SoloCommit(st, call, w, Return, o);
    SoloDone(Apply(st, w), call, Created(o.walletId), o);
  }

  // ---------------------------------------------------------------- reachable states

  lemma {:induction false} ReachableSound(labels: seq<Label>)
    ensures Sound(Exec(INIT, labels).store)
  {
    ReachableInv(labels);
  }

  // ---------------------------------------------------------------- what the tables say about repeated calls

  /** A new request stores one row under its key or none; a row that is answered is that row. */
  ghost predicate StoresAtMostOne(st: Store, out: Store, reply: Reply, req: Request, key: string) {
    || (out.rows == st.rows && reply.Refused?)
    || (&& |out.rows| == |st.rows| + 1 && out.rows[..|st.rows|] == st.rows
        && out.rows[|st.rows|].core.req == req && out.rows[|st.rows|].core.key == key
        && (reply.Answer? ==> reply.id == |st.rows|))
  }

  lemma ReferringStores(st: Store, out: Store, reply: Reply, c: Core, blind: bool)
    requires ReferringTable(st, out, reply, c, blind)
    ensures StoresAtMostOne(st, out, reply, c.req, c.key)
  {
    if exists r :: 0 <= r < |st.rows| && Matches(st.rows[r], c.req.provider, c.req.reference) {
      var r :| 0 <= r < |st.rows| && Matches(st.rows[r], c.req.provider, c.req.reference)
        && if c.kind == WIN then WinAgainst(st, out, reply, c, st.rows[r])
           else ReversalAgainst(st, out, reply, c, r, blind);
      if c.kind == WIN {
        WinStores(st, out, reply, c, st.rows[r]);
      } else {
        ReversalStores(st, out, reply, c, r, blind);
      }
    }
  }

  lemma WinStores(st: Store, out: Store, reply: Reply, c: Core, ref: Row)
    requires WinAgainst(st, out, reply, c, ref)
    ensures StoresAtMostOne(st, out, reply, c.req, c.key)
  {
  }

  lemma ReversalStores(st: Store, out: Store, reply: Reply, c: Core, r: nat, blind: bool)
    requires r < |st.rows| && ReversalAgainst(st, out, reply, c, r, blind)
    ensures StoresAtMostOne(st, out, reply, c.req, c.key)
  {
  }

  lemma NewStores(st: Store, out: Store, reply: Reply, req: Request, key: string, blind: bool)
    requires NewTable(st, out, reply, req, key, blind)
    ensures StoresAtMostOne(st, out, reply, req, key)
    ensures reply.Answer? ==> req.provider != ""
  {
    if Parse(req.amount, req.currency).Success? {
      var c := Core(req, key, KindNamed(req.kind), Parse(req.amount, req.currency).value, None);
      if req.reference != "" && c.kind in {WIN, REFUND, ROLLBACK} && ReferringTable(st, out, reply, c, blind) {
        ReferringStores(st, out, reply, c, blind);
      }
    }
  }

  /** The key under which a request is stored. */
  function KeyUsed(req: Request, header: string, body: string): string {
    if header != "" then header else if body != "" then body else req.provider + ":" + req.externalId
  }

  /** Whatever row a call appends, it is one row of its request, under the header's key if there is one. */
  lemma AppendedUnderKey(st: Store, out: Store, reply: Reply, req: Request, header: string, body: string, blind: bool)
    requires ProcessTable(st, out, reply, req, KeyUsed(req, header, body), blind)
    ensures out.rows == st.rows
            || (&& |out.rows| == |st.rows| + 1 && out.rows[..|st.rows|] == st.rows
                && out.rows[|st.rows|].core.req == req
                && out.rows[|st.rows|].core.key ==
                   if header != "" then header else if body != "" then body else req.provider + ":" + req.externalId)
  {
    var key := KeyUsed(req, header, body);
    if KeyKnown(st, req, key) {
      var i :| 0 <= i < |st.rows| && st.rows[i].core.req.provider == req.provider && st.rows[i].core.key == key;
      assert ReplayTable(st, out, reply, req, i);
    } else if !ExternalKnown(st, req) {
      NewStores(st, out, reply, req, key, blind);
    }
  }

  /**
   The same request sent twice under the same header key, whatever the keys in the bodies, stores at most one row, and
   if the first call is answered, the second is answered with the same row.
   */
  lemma HeaderDecides(
    st: Store, mid: Store, out: Store, r1: Reply, r2: Reply,
    req: Request, header: string, body1: string, body2: string, blind1: bool, blind2: bool)
    requires header != "" && ProcessTable(st, mid, r1, req, KeyUsed(req, header, body1), blind1)
    requires ProcessTable(mid, out, r2, req, KeyUsed(req, header, body2), blind2)
    ensures |out.rows| <= |st.rows| + 1
    ensures r1.Answer? ==> r2.Answer? && r1.id == r2.id
  {
    if KeyKnown(st, req, header) {
      RepliesWithKeyRow(st, mid, r1, req, header, blind1);
      RepliesWithKeyRow(mid, out, r2, req, header, blind2);
    } else if ExternalKnown(st, req) {
      AppendedUnderKey(mid, out, r2, req, header, body2, blind2);
    } else {
      NewStores(st, mid, r1, req, header, blind1);
      AppendedUnderKey(mid, out, r2, req, header, body2, blind2);
      if KeyKnown(mid, req, header) {
        RepliesWithKeyRow(mid, out, r2, req, header, blind2);
      }
    }
  }

  lemma RepliesWithKeyRow(st: Store, out: Store, reply: Reply, req: Request, key: string, blind: bool)
    requires KeyKnown(st, req, key) && ProcessTable(st, out, reply, req, key, blind)
    ensures out == st
    ensures reply.Answer? ==>
              forall i :: 0 <= i < |st.rows| && st.rows[i].core.req.provider == req.provider
                          && st.rows[i].core.key == key ==>
                reply.id == i
    ensures forall i :: 0 <= i < |st.rows| && st.rows[i].core.req.provider == req.provider
                        && st.rows[i].core.key == key ==>
              (reply.Answer? <==> st.rows[i].core.req == req)
  {
    var i :| 0 <= i < |st.rows| && st.rows[i].core.req.provider == req.provider && st.rows[i].core.key == key;
    assert ReplayTable(st, out, reply, req, i);
    forall j | 0 <= j < |st.rows| && st.rows[j].core.req.provider == req.provider && st.rows[j].core.key == key
      ensures (reply.Answer? ==> reply.id == j) && (reply.Answer? <==> st.rows[j].core.req == req)
    {
      assert ReplayTable(st, out, reply, req, j);
    }
  }
}
