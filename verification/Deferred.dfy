/** A reversal that is parked and resolved later ends like one that is processed directly. */
module Deferred {
  import opened Results
  import opened MoneyValue
  import opened WalletAggregate
  import opened Transactions
  import opened Tables
  import opened Machine
  import opened Invariants
  import opened StoreProofs
  import opened SystemProofs
  import opened ExternalIds
  import opened References
  import opened Termination
  import opened SoloRuns

  // ---------------------------------------------------------------- the fate of a reversal

  /** What becomes of a reversal whose reference is a given terminal row. */
  datatype Fate = Rejection(failure: FailureCode) | Movement(dir: Direction, change: BalanceChange)

  function FateOf(st: Store, c: Core, r: nat): Fate
    requires r < |st.rows| && c.req.wallet in st.wallets
  {
    var ref := st.rows[r];
    var dir := ReversalDirection(c.kind, ref.core.kind);
    if ref.state.status != PROCESSED then Rejection(REFERENCE_NOT_SUCCESSFUL)
    else if HasSuccessfulReversal(st.rows, r) then Rejection(DOUBLE_REVERSAL)
    else if c.amount != ref.core.amount then Rejection(REVERSAL_VALUE_MISMATCH)
    else if dir.None? then Rejection(INVALID_REFERENCE_TYPE)
    else
      var change := Change(st.wallets[c.req.wallet], dir.value, c.amount);
      if change.Failure? then Rejection(WalletFailure(c.kind, change.error)) else Movement(dir.value, change.value)
  }

  /** The row of reversal c with that fate (result is the balance stored with it). */
  function FateRow(c: Core, r: nat, fate: Fate, result: Option<Money>): Row {
    match fate
    case Rejection(failure) => RowOf(c.(result := result), REJECTED, failure, None)
    case Movement(_, change) => RowOf(c.(result := Some(change.after)), PROCESSED, NO_FAILURE, Some(r))
  }

  function FateMove(c: Core, fate: Fate): Option<Move> {
    match fate
    case Rejection(_) => None
    case Movement(dir, change) => Some(Move(c.req.wallet, dir, c.amount, change))
  }

  function FateSettle(id: nat, c: Core, r: nat, fate: Fate): Write {
    match fate
    case Rejection(failure) => Settle(id, REJECTED, failure, None, None)
    case Movement(_, _) => Settle(id, PROCESSED, NO_FAILURE, Some(r), FateMove(c, fate))
  }

  /** The rows of a reversal and its reference, as the checks leave them. */
  ghost predicate Referable(st: Store, c: Core, r: nat) {
    && TxOk(c) && Reversal(c.kind) && c.req.wallet in st.wallets && WalletRowOk(st.wallets[c.req.wallet])
    && r < |st.rows| && Presentable(st.rows[r].core.amount)
    && HasExternal(st.rows[r].core, c.req.provider, c.req.reference)
    && Terminal(st.rows[r].state.status)
  }

  // ---------------------------------------------------------------- from the reference on

  /** The lookup returns row r if no other row matches. */
  lemma FoundReference(st: Store, c: Core, r: nat, pick: nat)
    requires Referable(st, c, r)
    requires forall q :: 0 <= q < |st.rows| && HasExternal(st.rows[q].core, c.req.provider, c.req.reference) ==> q == r
    ensures FindExternal(st.rows, c.req.provider, c.req.reference, pick) == Some(r)
  {
  }

  /** A rejection is stored: as a new row, or in the parked row. */
  lemma RefusalCommits(st: Store, call: Call, c: Core, parked: Option<nat>, failure: FailureCode, o: Oracle)
    requires parked.None? ==> InsertAllowed(st, RowOf(c, REJECTED, failure, None))
    requires parked.Some? ==> parked.value < |st.rows|
    ensures Solo(st, call, Refuse(c, parked, failure), o).store ==
            if parked.None? then Apply(st, Insert(RowOf(c, REJECTED, failure, None), None))
            else Apply(st, Settle(parked.value, REJECTED, failure, None, None))
  {
    if parked.None? {
      SoloCommits(st, call, Insert(RowOf(c, REJECTED, failure, None), None), Return, o);
    } else {
      SoloCommits(st, call, Settle(parked.value, REJECTED, failure, None, None), Return, o);
    }
  }

  /** The store that a reversal with that fate leaves: a new row directly, a settled one on the deferred path. */
  function EndState(st: Store, c: Core, parked: Option<nat>, r: nat, fate: Fate, result: Option<Money>): Store
    requires c.req.wallet in st.wallets && (parked.Some? ==> parked.value < |st.rows|)
  {
    match parked
    case None => Apply(st, Insert(FateRow(c, r, fate, result), FateMove(c, fate)))
    case Some(id) => Apply(st, FateSettle(id, c, r, fate))
  }

  /** The instance may write: the parked row exists, or no row has the key of the new one. */
  ghost predicate Writable(st: Store, c: Core, parked: Option<nat>) {
    match parked
    case None => forall i :: 0 <= i < |st.rows| ==> !HasKey(st.rows[i].core, c.req.provider, c.key)
    case Some(id) => id < |st.rows|
  }

  lemma RejectionEnds(st: Store, call: Call, c: Core, parked: Option<nat>, r: nat, failure: FailureCode, o: Oracle)
    requires TxOk(c) && c.req.wallet in st.wallets && Writable(st, c, parked)
    ensures Solo(st, call, Refuse(c, parked, failure), o).store == EndState(st, c, parked, r, Rejection(failure), None)
  {
    RefusalCommits(st, call, c, parked, failure, o);
    assert c.(result := None) == c;
  }

  lemma WalletErrorEnds(st: Store, call: Call, job: Job, r: nat, e: WalletError, o: Oracle)
    returns (result: Option<Money>)
    requires TxOk(job.core) && job.core.req.wallet in st.wallets && Writable(st, job.core, job.parked)
    ensures Solo(st, call, OnWalletError(job, e), o).store ==
            EndState(st, job.core, job.parked, r, Rejection(WalletFailure(job.core.kind, e)), result)
  {
    var c, failure, pc := job.core, WalletFailure(job.core.kind, e), OnWalletError(job, e);
    result := None;
    if job.parked.Some? {
      SoloCommits(st, call, Settle(job.parked.value, REJECTED, failure, None, None),
        Unclaimed(Some(InsufficientFunds)), o);
    } else if failure == WALLET_ERROR {
      assert c.(result := None) == c;
      SoloCommits(st, call, Insert(RowOf(c, REJECTED, failure, None), None), pc.after, o);
    } else {
      SoloAdvances(st, call, pc, o);
      result := Some(st.wallets[c.req.wallet].balance);
      SoloCommits(st, call, Insert(RejectedRow(st, c, failure), None), ReturnError(pc.error), o);
    }
  }

  lemma MovementEnds(st: Store, call: Call, job: Job, r: nat, change: BalanceChange, o: Oracle)
    requires TxOk(job.core) && Reversal(job.core.kind) && job.core.req.wallet in st.wallets
    requires Writable(st, job.core, job.parked)
    requires job.ref == Some(r) && !HasSuccessfulReversal(st.rows, r)
    ensures Solo(st, call, Update(job, st.wallets[job.core.req.wallet], change), o).store ==
            EndState(st, job.core, job.parked, r, Movement(job.dir, change), None)
  {
    var pc := Update(job, st.wallets[job.core.req.wallet], change);
    SoloAdvances(st, call, pc, o);
    SoloCommits(st, call, MoveWrite(job, change), Return, o);
  }

  lemma LockEnds(st: Store, call: Call, job: Job, r: nat, o: Oracle) returns (result: Option<Money>)
    requires TxOk(job.core) && Reversal(job.core.kind) && job.core.req.wallet in st.wallets
    requires Writable(st, job.core, job.parked)
    requires job.ref == Some(r) && !HasSuccessfulReversal(st.rows, r)
    ensures var change := Change(st.wallets[job.core.req.wallet], job.dir, job.core.amount);
            Solo(st, call, LockWallet(job), o).store ==
            EndState(st, job.core, job.parked, r,
                     if change.Failure? then Rejection(WalletFailure(job.core.kind, change.error))
                     else Movement(job.dir, change.value),
                     result)
  {
    var read := st.wallets[job.core.req.wallet];
    var change := Change(read, job.dir, job.core.amount);
    WalletStepRank(st, call, LockWallet(job), o);
    SoloAdvances(st, call, LockWallet(job), o);
    if change.Failure? {
      result := WalletErrorEnds(st, call, job, r, change.error, o);
    } else {
      result := None;
      MovementEnds(st, call, job, r, change.value, o);
    }
  }

  lemma CheckEnds(st: Store, call: Call, c: Core, parked: Option<nat>, r: nat, o: Oracle)
    returns (result: Option<Money>)
    requires Referable(st, c, r) && Writable(st, c, parked) && !o.blind && st.rows[r].state.status == PROCESSED
    ensures Solo(st, call, CheckReversed(c, parked, r, st.rows[r]), o).store ==
              EndState(st, c, parked, r, FateOf(st, c, r), result)
  {
    var pc := CheckReversed(c, parked, r, st.rows[r]);
    WalletStepRank(st, call, pc, o);
    SoloAdvances(st, call, pc, o);
    result := None;
    var next := Advance(st, call, pc, o);
    if next.LockWallet? {
      result := LockEnds(st, call, next.job, r, o);
    } else {
      RejectionEnds(st, call, c, parked, r, FateOf(st, c, r).failure, o);
    }
  }

  /** From the lookup of the reference on, both paths do what FateOf says. */
  lemma ReferenceEnds(st: Store, call: Call, c: Core, parked: Option<nat>, r: nat, o: Oracle)
    returns (result: Option<Money>)
    requires Referable(st, c, r) && Writable(st, c, parked) && !o.blind
    requires FindExternal(st.rows, c.req.provider, c.req.reference, o.pick) == Some(r)
    requires parked.None? ==> ValidateReference(c, st.rows[r].core).None?
    ensures Solo(st, call, FindReference(c, parked), o).store == EndState(st, c, parked, r, FateOf(st, c, r), result)
  {
    var pc := FindReference(c, parked);
    ReferenceRank(c, parked, Some(r), st.rows);
    SoloAdvances(st, call, pc, o);
    result := None;
    if st.rows[r].state.status == PROCESSED {
      result := CheckEnds(st, call, c, parked, r, o);
    } else {
      RejectionEnds(st, call, c, parked, r, REFERENCE_NOT_SUCCESSFUL, o);
    }
  }

  // ---------------------------------------------------------------- parked rows were prepared by the service

  ghost predicate Built(c: Core) {
    Prepare(c.req, c.key) == Success(c)
  }

  ghost predicate RowsBuilt(rows: seq<Row>) {
    forall i :: 0 <= i < |rows| && rows[i].state.status == PENDING_REFERENCE ==> Built(rows[i].core)
  }

  ghost predicate PcBuilt(pc: Pc) {
    match pc
    case FindReference(c, None) => Built(c)
    case Commit(Insert(row, _), _) => row.state.status == PENDING_REFERENCE ==> Built(row.core)
    case _ => true
  }

  ghost predicate AllBuilt(s: Sys) {
    RowsBuilt(s.store.rows) && forall a :: a in s.actors ==> PcBuilt(s.actors[a].pc)
  }

  lemma DispatchBuilt(req: Request, key: string)
    ensures PcBuilt(Dispatch(req, key))
  {
  }

  lemma AdvanceBuilt(st: Store, call: Call, pc: Pc, o: Oracle)
    requires PcBuilt(pc)
    ensures PcBuilt(Advance(st, call, pc, o))
  {
    if pc.CheckExternal? && call.Process? {
      DispatchBuilt(call.req, call.key);
    }
  }

  lemma WriteKeepsBuilt(st: Store, w: Write)
    requires RowsBuilt(st.rows) && WriteOk(st, w) && Applicable(st, w)
    requires w.Insert? && w.row.state.status == PENDING_REFERENCE ==> Built(w.row.core)
    ensures RowsBuilt(Apply(st, w).rows)
  {
    ApplyRows(st, w);
  }

  lemma CommitBuilt(st: Store, w: Write, after: After)
    ensures PcBuilt(Committed(st, w, after)) && PcBuilt(Violated(w, after))
  {
  }

  lemma CommitKeepsBuilt(s: Sys, a: nat, o: Oracle)
    requires ActorsOk(s) && AllBuilt(s) && a in s.actors && s.actors[a].pc.Commit?
    ensures AllBuilt(ActorStep(s, a, o))
  {
    var actor := s.actors[a];
    CommitKeepsRowsBuilt(s, a, o);
    CommitBuilt(s.store, actor.pc.write, actor.pc.after);
  }

  lemma CommitKeepsRowsBuilt(s: Sys, a: nat, o: Oracle)
    requires ActorsOk(s) && AllBuilt(s) && a in s.actors && s.actors[a].pc.Commit?
    ensures RowsBuilt(ActorStep(s, a, o).store.rows)
  {
    var actor := s.actors[a];
    assert PcOk(s.store, actor.call, actor.pc) && PcBuilt(actor.pc);
    WriteOkApplicable(s.store, actor.pc.write);
    WriteKeepsBuilt(s.store, actor.pc.write);
  }

  lemma StepKeepsBuilt(s: Sys, a: nat, o: Oracle)
    requires ActorsOk(s) && AllBuilt(s) && a in s.actors
    ensures AllBuilt(ActorStep(s, a, o))
  {
    if s.actors[a].pc.Commit? {
      CommitKeepsBuilt(s, a, o);
    } else {
      AdvanceBuilt(s.store, s.actors[a].call, s.actors[a].pc, o);
    }
  }

  lemma ForeignKeepsBuilt(s: Sys, w: Write)
    requires AllBuilt(s) && WriteOk(s.store, w) && (w.Insert? ==> w.row.state.status != PENDING_REFERENCE)
    ensures AllBuilt(ForeignStep(s, w))
  {
    WriteOkApplicable(s.store, w);
    WriteKeepsBuilt(s.store, w);
  }

  lemma NextKeepsBuilt(s: Sys, l: Label)
    requires RowsOk(s.store.rows) && ActorsOk(s) && AllBuilt(s)
    ensures AllBuilt(Next(s, l))
  {
    match l {
      case Step(a, o) => if a in s.actors && !Blocked(s, a) { StepKeepsBuilt(s, a, o); }
      case ForeignPending(core) =>
        if CoreOk(core) && core.result.None? {
          ForeignKeepsBuilt(s, Insert(RowOf(core, PENDING, NO_FAILURE, None), None));
        }
      case ForeignSettle(id, status) =>
        if id < |s.store.rows| && ForeignWrite(s.store, id, status).Some? {
          ForeignWriteOk(s.store, id, status);
          ForeignKeepsBuilt(s, ForeignWrite(s.store, id, status).value);
        }
      case _ =>
    }
  }

  lemma {:induction false} ReachableBuilt(labels: seq<Label>)
    ensures AllBuilt(Exec(INIT, labels))
  {
    if labels != [] {
      var front := labels[..|labels| - 1];
      ReachableBuilt(front);
      ReachableInv(front);
      NextKeepsBuilt(Exec(INIT, front), labels[|labels| - 1]);
    }
  }

  // ---------------------------------------------------------------- the two paths

  /** The same request under another external identifier and key. */
  function Twin(c: Core, externalId: string, key: string): Core {
    c.(req := c.req.(externalId := externalId), key := key)
  }

  lemma TwinBuilt(c: Core, externalId: string, key: string)
    requires Built(c) && externalId != "" && key != ""
    ensures Built(Twin(c, externalId, key))
  {
  }

  lemma TwinFate(st: Store, c: Core, externalId: string, key: string, r: nat)
    requires Referable(st, c, r) && externalId != "" && key != ""
    ensures Referable(st, Twin(c, externalId, key), r)
    ensures FateOf(st, Twin(c, externalId, key), r) == FateOf(st, c, r)
    ensures FateMove(Twin(c, externalId, key), FateOf(st, c, r)) == FateMove(c, FateOf(st, c, r))
    ensures ValidateReference(Twin(c, externalId, key), st.rows[r].core) == ValidateReference(c, st.rows[r].core)
  {
  }

  /** A parked row that may still be retried is claimed and reaches the lookup of its reference. */
  lemma ResolveReaches(st: Store, id: nat, o: Oracle)
    requires id < |st.rows| && st.rows[id].state.status == PENDING_REFERENCE
    requires st.rows[id].state.attempts < MAX_REF_ATTEMPTS
    ensures Solo(st, Resolve(id), FindParked, o) == Solo(st, Resolve(id), FindReference(st.rows[id].core, Some(id)), o)
  {
    SoloAdvances(st, Resolve(id), FindParked, o);
    SoloAdvances(st, Resolve(id), Claim(st.rows[id]), o);
  }

  /** A new request with a reference passes both checks and reaches the lookup of its reference. */
  lemma ProcessReaches(st: Store, c: Core, o: Oracle)
    requires Built(c) && Reversal(c.kind) && c.req.reference != ""
    requires NoKey(st.rows, c.req, c.key) && NoExternal(st.rows, c.req)
    ensures Solo(st, Process(c.req, c.key), FindByKey, o) == Solo(st, Process(c.req, c.key), FindReference(c, None), o)
  {
    var call := Process(c.req, c.key);
    assert FindKey(st.rows, c.req.provider, c.key).None?;
    SoloAdvances(st, call, FindByKey, o);
    assert Dispatch(c.req, c.key) == FindReference(c, None);
    SoloAdvances(st, call, CheckExternal, o);
  }

  /** Two stores differ only in the transaction that one change is booked under. */
  ghost predicate SameBooking(st: Store, direct: Store, deferred: Store, id: nat) {
    && direct.wallets == deferred.wallets
    && |direct.ledger| == |deferred.ledger| && |direct.outbox| == |deferred.outbox|
    && st.ledger <= direct.ledger && st.ledger <= deferred.ledger
    && st.outbox <= direct.outbox && st.outbox <= deferred.outbox
    && (forall k :: |st.ledger| <= k < |direct.ledger| ==>
          direct.ledger[k].tx == |st.rows| && deferred.ledger[k] == direct.ledger[k].(tx := id))
    && (forall k :: |st.outbox| <= k < |direct.outbox| ==>
          direct.outbox[k].tx == |st.rows| && deferred.outbox[k] == Retag(direct.outbox[k], id))
  }

  function Retag(ev: Event, tx: nat): Event {
    match ev
    case TransactionProcessed(_, m) => TransactionProcessed(tx, m)
    case TransactionRejected(_, m, f) => TransactionRejected(tx, m, f)
    case TransactionParked(_) => TransactionParked(tx)
    case BalanceChanged(w, _, d, m, b, a, v) => BalanceChanged(w, tx, d, m, b, a, v)
  }

  lemma EndStatesAgree(st: Store, c: Core, d: Core, id: nat, r: nat, fate: Fate, result: Option<Money>,
    none: Option<Money>)
    requires c.req.wallet in st.wallets && id < |st.rows| && st.rows[id].core == c
    requires d.req.wallet == c.req.wallet && d.amount == c.amount
    requires FateMove(d, fate) == FateMove(c, fate)
    requires st.rows[id].state.ref.None?
    ensures var direct, deferred := EndState(st, d, None, r, fate, result), EndState(st, c, Some(id), r, fate, none);
            && |direct.rows| == |st.rows| + 1 && direct.rows[..|st.rows|] == st.rows
            && |deferred.rows| == |st.rows| && deferred.rows == st.rows[id := deferred.rows[id]]
            && direct.rows[|st.rows|].state.(attempts := 0) == deferred.rows[id].state.(attempts := 0)
            && SameBooking(st, direct, deferred, id)
  {
  }

  /**
   A parked reversal that is resolved with fewer than ten attempts, against a reference that has become terminal,
   ends with the status, failure code, internal reference, wallet change, ledger entry and closing events that the
   same request would get if it arrived only now.
   */
  lemma {:induction false} DeferredRefinesDirect(labels: seq<Label>, id: nat, r: nat, externalId: string,
    key: string, o: Oracle)
    requires var rows := Exec(INIT, labels).store.rows;
             && UniqueExternal(rows)
             && id < |rows| && rows[id].state.status == PENDING_REFERENCE && rows[id].state.attempts < MAX_REF_ATTEMPTS
             && r < |rows| && Terminal(rows[r].state.status)
             && HasExternal(rows[r].core, rows[id].core.req.provider, rows[id].core.req.reference)
             && NoExternal(rows, Twin(rows[id].core, externalId, key).req) && NoKey(rows, rows[id].core.req, key)
    requires externalId != "" && key != "" && !o.blind
    ensures var st := Exec(INIT, labels).store;
            var twin := Twin(st.rows[id].core, externalId, key);
            var direct := Solo(st, Process(twin.req, key), FindByKey, o).store;
            var deferred := Solo(st, Resolve(id), FindParked, o).store;
            && |direct.rows| == |st.rows| + 1 && direct.rows[..|st.rows|] == st.rows
            && |deferred.rows| == |st.rows| && deferred.rows == st.rows[id := deferred.rows[id]]
            && direct.rows[|st.rows|].state.(attempts := 0) == deferred.rows[id].state.(attempts := 0)
            && Terminal(deferred.rows[id].state.status)
            && SameBooking(st, direct, deferred, id)
  {
    ReachableInv(labels);
    ReachableU(labels);
    ReachableBuilt(labels);
    DeferredIsDirect(Exec(INIT, labels).store, id, r, externalId, key, o);
  }

  lemma ParkedReferable(st: Store, id: nat, r: nat)
    requires RowsOk(st.rows) && WalletsOk(st.wallets) && WalletsExist(st) && UniqueExternal(st.rows)
    requires id < |st.rows| && st.rows[id].state.status == PENDING_REFERENCE
    requires r < |st.rows| && Terminal(st.rows[r].state.status)
    requires HasExternal(st.rows[r].core, st.rows[id].core.req.provider, st.rows[id].core.req.reference)
    ensures Referable(st, st.rows[id].core, r) && st.rows[id].state.ref.None?
    ensures forall pick: nat ::
              FindExternal(st.rows, st.rows[id].core.req.provider, st.rows[id].core.req.reference, pick) == Some(r)
  {
    assert RowOk(st.rows, st.rows[id]) && RowOk(st.rows, st.rows[r]);
    var c := st.rows[id].core;
    assert WalletRowOk(st.wallets[c.req.wallet]);
    forall q | 0 <= q < |st.rows| && HasExternal(st.rows[q].core, c.req.provider, c.req.reference)
      ensures q == r
    {
      assert SameExternal(st.rows[q].core, st.rows[r].core);
    }
    forall pick: nat
      ensures FindExternal(st.rows, c.req.provider, c.req.reference, pick) == Some(r)
    {
      FoundReference(st, c, r, pick);
    }
  }

  lemma DeferredIsDirect(st: Store, id: nat, r: nat, externalId: string, key: string, o: Oracle)
    requires RowsOk(st.rows) && WalletsOk(st.wallets) && WalletsExist(st) && RowsBuilt(st.rows) && RowsU(st.rows)
    requires UniqueExternal(st.rows)
    requires id < |st.rows| && st.rows[id].state.status == PENDING_REFERENCE
    requires st.rows[id].state.attempts < MAX_REF_ATTEMPTS
    requires r < |st.rows| && Terminal(st.rows[r].state.status)
    requires HasExternal(st.rows[r].core, st.rows[id].core.req.provider, st.rows[id].core.req.reference)
    requires NoExternal(st.rows, Twin(st.rows[id].core, externalId, key).req)
    requires NoKey(st.rows, st.rows[id].core.req, key)
    requires externalId != "" && key != "" && !o.blind
    ensures var twin := Twin(st.rows[id].core, externalId, key);
            var direct := Solo(st, Process(twin.req, key), FindByKey, o).store;
            var deferred := Solo(st, Resolve(id), FindParked, o).store;
            && |direct.rows| == |st.rows| + 1 && direct.rows[..|st.rows|] == st.rows
            && |deferred.rows| == |st.rows| && deferred.rows == st.rows[id := deferred.rows[id]]
            && direct.rows[|st.rows|].state.(attempts := 0) == deferred.rows[id].state.(attempts := 0)
            && Terminal(deferred.rows[id].state.status)
            && SameBooking(st, direct, deferred, id)
  {
    var c := st.rows[id].core;
    var twin := Twin(c, externalId, key);
    ParkedReferable(st, id, r);
    assert RowU(st.rows, id) && Validated(st.rows, c, r);
    TwinBuilt(c, externalId, key);
    TwinFate(st, c, externalId, key, r);
    ResolveReaches(st, id, o);
    ProcessReaches(st, twin, o);
    var result := ReferenceEnds(st, Process(twin.req, key), twin, None, r, o);
    var none := ReferenceEnds(st, Resolve(id), c, Some(id), r, o);
    EndStatesAgree(st, c, twin, id, r, FateOf(st, c, r), result, none);
    assert EndState(st, c, Some(id), r, FateOf(st, c, r), none).rows[id].state.status in {PROCESSED, REJECTED};
  }
}
