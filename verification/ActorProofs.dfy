/** Every step of every instance keeps what is known at its program point, and disturbs no other instance. */
module ActorProofs {
  import opened Results
  import opened WalletAggregate
  import opened Transactions
  import opened Tables
  import opened Machine
  import opened Invariants
  import opened StoreProofs

  // ---------------------------------------------------------------- steps that do not commit

  lemma RejectOk(st: Store, call: Call, core: Core, failure: FailureCode)
    requires TxOk(core) && Belongs(st.rows, call, core, None)
    ensures PcOk(st, call, Reject(core, failure))
  {
  }

  lemma RefuseOk(st: Store, call: Call, core: Core, parked: Option<nat>, failure: FailureCode)
    requires RowsOk(st.rows) && TxOk(core) && Belongs(st.rows, call, core, parked)
    ensures PcOk(st, call, Refuse(core, parked, failure))
  {
    if parked.Some? {
      assert RowOk(st.rows, st.rows[parked.value]);
    }
  }

  lemma DispatchOk(st: Store, req: Request, key: string)
    ensures PcOk(st, Process(req, key), Dispatch(req, key))
  {
    var prepared := Prepare(req, key);
    if prepared.Success? {
      RejectOk(st, Process(req, key), prepared.value, MISSING_REFERENCE);
    }
  }

  lemma WalletErrorOk(st: Store, call: Call, job: Job, e: WalletError)
    requires RowsOk(st.rows) && JobOk(st.rows, call, job)
    ensures PcOk(st, call, OnWalletError(job, e))
  {
    if job.parked.Some? {
      assert RowOk(st.rows, st.rows[job.parked.value]);
    }
  }

  lemma ReferenceDirectOk(st: Store, call: Call, core: Core, found: Option<nat>)
    requires TxOk(core) && Belongs(st.rows, call, core, None) && (core.kind == WIN || Reversal(core.kind))
    requires found.Some? ==>
               found.value < |st.rows| && HasExternal(st.rows[found.value].core, core.req.provider, core.req.reference)
    ensures PcOk(st, call, OnReferenceDirect(core, found, st.rows))
  {
    forall failure
      ensures PcOk(st, call, Reject(core, failure))
    {
      RejectOk(st, call, core, failure);
    }
    if found.Some? {
      assert ReferenceExists(st.rows, core);
    }
  }

  lemma ReferenceDeferredOk(st: Store, call: Call, core: Core, id: nat, found: Option<nat>)
    requires RowsOk(st.rows) && TxOk(core) && Belongs(st.rows, call, core, Some(id))
    requires found.Some? ==>
               found.value < |st.rows| && HasExternal(st.rows[found.value].core, core.req.provider, core.req.reference)
    ensures PcOk(st, call, OnReferenceDeferred(core, id, found, st.rows))
  {
    RefuseOk(st, call, core, Some(id), REFERENCE_NOT_SUCCESSFUL);
  }

  lemma ReversedCheckedOk(st: Store, call: Call, core: Core, parked: Option<nat>, ref: nat, refRow: Row, reversed: bool)
    requires RowsOk(st.rows) && PcOk(st, call, CheckReversed(core, parked, ref, refRow))
    ensures PcOk(st, call, OnReversedChecked(core, parked, ref, refRow, reversed))
  {
    forall failure
      ensures PcOk(st, call, Refuse(core, parked, failure))
    {
      RefuseOk(st, call, core, parked, failure);
    }
    if ReversalValueMatches(core.amount, refRow.core.amount) && ReversalDirection(core.kind, refRow.core.kind).Some? {
      assert RowOk(st.rows, st.rows[ref]);
      assert refRow.core.amount == core.amount;
      assert RefFits(st.rows, core, ref);
    }
  }

  lemma UpdateOk(st: Store, call: Call, job: Job, read: WalletRow, change: BalanceChange)
    requires PcOk(st, call, Update(job, read, change)) && RowsOk(st.rows)
    ensures PcOk(st, call, Commit(MoveWrite(job, change), Return))
  {
    var core := job.core.(result := Some(change.after));
    if job.parked.None? {
      assert MovementOk(st.rows, core, job.dir, job.ref);
      assert CoreOk(core);
    } else {
      assert RowOk(st.rows, st.rows[job.parked.value]);
      assert MoveOk(st, job.core, Move(job.core.req.wallet, job.dir, job.core.amount, change));
    }
  }

  lemma ReplayOk(st: Store, call: Call, id: nat)
    requires call.Process? && id < |st.rows| && HasKey(st.rows[id].core, call.req.provider, call.key)
    ensures PcOk(st, call, Replay(id, st.rows[id]))
  {
  }

  lemma FindByKeyOk(st: Store, call: Call, o: Oracle)
    requires call.Process?
    ensures PcOk(st, call, Advance(st, call, FindByKey, o)) && PcOk(st, call, Advance(st, call, FindDuplicate, o))
  {
    var found := FindKey(st.rows, call.req.provider, call.key);
    if found.Some? { ReplayOk(st, call, found.value); }
  }

  lemma FindReferenceOk(st: Store, call: Call, core: Core, parked: Option<nat>, o: Oracle)
    requires RowsOk(st.rows) && PcOk(st, call, FindReference(core, parked))
    ensures PcOk(st, call, Advance(st, call, FindReference(core, parked), o))
  {
    var found := FindExternal(st.rows, core.req.provider, core.req.reference, o.pick);
    if parked.None? {
      ReferenceDirectOk(st, call, core, found);
    } else {
      ReferenceDeferredOk(st, call, core, parked.value, found);
    }
  }

  lemma PlainReadOk(st: Store, call: Call, pc: Pc, o: Oracle)
    requires RowsOk(st.rows) && WalletsOk(st.wallets) && PcOk(st, call, pc)
    requires pc.ReadLoss? || pc.ReadRejected?
    ensures PcOk(st, call, Advance(st, call, pc, o))
  {
  }

  lemma BalanceReadOk(st: Store, call: Call, pc: Pc, o: Oracle)
    requires PcOk(st, call, pc) && (pc.ReplayBalance? || pc.ReportBalance?)
    ensures PcOk(st, call, Advance(st, call, pc, o))
  {
  }

  lemma FindParkedOk(st: Store, call: Call, o: Oracle)
    requires RowsOk(st.rows) && call.Resolve?
    ensures PcOk(st, call, Advance(st, call, FindParked, o))
  {
    if call.id < |st.rows| {
      assert RowOk(st.rows, st.rows[call.id]);
    }
  }

  lemma UpdateStepOk(st: Store, call: Call, job: Job, read: WalletRow, change: BalanceChange, o: Oracle)
    requires RowsOk(st.rows) && PcOk(st, call, Update(job, read, change))
    ensures PcOk(st, call, Advance(st, call, Update(job, read, change), o))
  {
    WalletErrorOk(st, call, job, ConcurrentUpdate);
    UpdateOk(st, call, job, read, change);
  }

  lemma CheckReversedOk(st: Store, call: Call, pc: Pc, o: Oracle)
    requires pc.CheckReversed? && RowsOk(st.rows) && PcOk(st, call, pc)
    ensures PcOk(st, call, Advance(st, call, pc, o))
  {
    var reversed := !o.blind && HasSuccessfulReversal(st.rows, pc.ref);
    ReversedCheckedOk(st, call, pc.core, pc.parked, pc.ref, pc.refRow, reversed);
  }

  lemma CheckExternalOk(st: Store, call: Call, o: Oracle)
    requires call.Process?
    ensures PcOk(st, call, Advance(st, call, CheckExternal, o))
  {
    DispatchOk(st, call.req, call.key);
  }

  lemma FindWalletOk(st: Store, call: Call, o: Oracle)
    requires call.Create?
    ensures PcOk(st, call, Advance(st, call, FindWallet, o))
  {
  }

  lemma AdvanceOk(st: Store, call: Call, pc: Pc, o: Oracle)
    requires RowsOk(st.rows) && WalletsOk(st.wallets) && PcOk(st, call, pc)
    ensures PcOk(st, call, Advance(st, call, pc, o))
  {
    if pc.FindByKey? || pc.FindDuplicate? {
      FindByKeyOk(st, call, o);
    } else if pc.CheckExternal? {
      CheckExternalOk(st, call, o);
    } else if pc.FindReference? {
      FindReferenceOk(st, call, pc.core, pc.parked, o);
    } else if pc.CheckReversed? {
      CheckReversedOk(st, call, pc, o);
    } else if pc.LockWallet? {
      LockWalletOk(st, call, pc.job, o);
    } else if pc.Update? {
      UpdateStepOk(st, call, pc.job, pc.read, pc.change, o);
    } else if pc.Claim? {
      ClaimOk(st, call, pc.tx, o);
    } else if pc.FindWallet? {
      FindWalletOk(st, call, o);
    } else if pc.FindParked? {
      FindParkedOk(st, call, o);
    } else if pc.ReplayBalance? || pc.ReportBalance? {
      BalanceReadOk(st, call, pc, o);
    } else if pc.ReadLoss? || pc.ReadRejected? {
      PlainReadOk(st, call, pc, o);
    }
  }

  lemma LockWalletOk(st: Store, call: Call, job: Job, o: Oracle)
    requires RowsOk(st.rows) && PcOk(st, call, LockWallet(job))
    ensures PcOk(st, call, Advance(st, call, LockWallet(job), o))
  {
    forall e
      ensures PcOk(st, call, OnWalletError(job, e))
    {
      WalletErrorOk(st, call, job, e);
    }
  }

  lemma ClaimOk(st: Store, call: Call, tx: Row, o: Oracle)
    requires RowsOk(st.rows) && PcOk(st, call, Claim(tx))
    ensures PcOk(st, call, Advance(st, call, Claim(tx), o))
  {
    if st.rows[call.id].state.status == PENDING_REFERENCE {
      RefuseOk(st, call, tx.core, Some(call.id), REFERENCE_NOT_FOUND);
    }
  }

  // ---------------------------------------------------------------- commits

  lemma CommittedOk(st: Store, call: Call, w: Write, after: After)
    requires RowsOk(st.rows) && PcOk(st, call, Commit(w, after)) && Applicable(st, w)
    ensures PcOk(Apply(st, w), call, Committed(st, w, after))
  {
    match w {
      case Insert(row, move) => InsertCommittedOk(st, call, w, after);
      case Settle(id, status, failure, ref, move) => SettleCommittedOk(st, call, w, after);
      case Wait(id) => WaitCommittedOk(st, call, w, after);
      case Open(wallet, player, provider, initial) =>
    }
  }

  lemma InsertCommittedOk(st: Store, call: Call, w: Write, after: After)
    requires w.Insert? && PcOk(st, call, Commit(w, after)) && Applicable(st, w)
    ensures PcOk(Apply(st, w), call, Committed(st, w, after))
  {
    ApplyRows(st, w);
    InsertedCore(st, w);
  }

  lemma SettleCommittedOk(st: Store, call: Call, w: Write, after: After)
    requires w.Settle? && PcOk(st, call, Commit(w, after)) && Applicable(st, w)
    ensures PcOk(Apply(st, w), call, Committed(st, w, after))
  {
    ApplyRows(st, w);
  }

  lemma WaitCommittedOk(st: Store, call: Call, w: Write, after: After)
    requires w.Wait? && RowsOk(st.rows) && PcOk(st, call, Commit(w, after)) && Applicable(st, w)
    ensures PcOk(Apply(st, w), call, Committed(st, w, after))
  {
    ApplyRows(st, w);
    assert RowOk(st.rows, st.rows[w.id]);
  }

  lemma ViolatedOk(st: Store, call: Call, w: Write, after: After)
    requires PcOk(st, call, Commit(w, after))
    ensures PcOk(st, call, Violated(w, after))
  {
  }

  // ---------------------------------------------------------------- other instances

  /** Nothing that the instance at pc has locked or remembers was changed. */
  ghost predicate Undisturbed(st: Store, st': Store, pc: Pc) {
    && Grows(st.rows, st'.rows)
    && st.wallets.Keys <= st'.wallets.Keys
    && (HeldWallet(pc).Some? && HeldWallet(pc).value in st.wallets ==>
          st'.wallets[HeldWallet(pc).value] == st.wallets[HeldWallet(pc).value])
    && (HeldRow(pc).Some? && HeldRow(pc).value < |st.rows| ==>
         st'.rows[HeldRow(pc).value] == st.rows[HeldRow(pc).value])
    && (forall i :: 0 <= i < |st.rows| && st.rows[i].state.status != PENDING ==> st'.rows[i].state.status != PENDING)
    && (forall i :: 0 <= i < |st.rows| && Terminal(st.rows[i].state.status) ==> Terminal(st'.rows[i].state.status))
    && (forall i :: 0 <= i < |st.rows| && st.rows[i].core.result.Some? ==> st'.rows[i] == st.rows[i])
  }

  lemma MovementStays(rows: seq<Row>, rows': seq<Row>, c: Core, dir: Direction, ref: Option<nat>)
    requires Grows(rows, rows') && MovementOk(rows, c, dir, ref)
    ensures MovementOk(rows', c, dir, ref)
  {
  }

  lemma WriteStays(st: Store, st': Store, call: Call, w: Write, after: After)
    requires PcOk(st, call, Commit(w, after)) && Undisturbed(st, st', Commit(w, after))
    ensures PcOk(st', call, Commit(w, after))
  {
    match w {
      case Insert(row, None) =>
        if row.state.status == PENDING_REFERENCE { GrowsKeepsReference(st.rows, st'.rows, row.core); }
      case Insert(row, Some(mv)) => MovementStays(st.rows, st'.rows, row.core, mv.dir, row.state.ref);
      case Settle(id, status, failure, ref, None) =>
      case Settle(id, status, failure, ref, Some(mv)) =>
        MovementStays(st.rows, st'.rows, st.rows[id].core, mv.dir, ref);
      case Wait(id) =>
      case Open(wallet, player, provider, initial) =>
    }
  }

  lemma PcStays(st: Store, st': Store, call: Call, pc: Pc)
    requires PcOk(st, call, pc) && Undisturbed(st, st', pc)
    ensures PcOk(st', call, pc)
  {
    match pc {
      case LockWallet(job) => MovementStays(st.rows, st'.rows, job.core, job.dir, job.ref);
      case Update(job, read, change) => MovementStays(st.rows, st'.rows, job.core, job.dir, job.ref);
      case Commit(w, after) => WriteStays(st, st', call, w, after);
      case _ =>
    }
  }

  /** A row that records a result balance is never updated again. */
  lemma ResultFixesRow(st: Store, w: Write)
    requires RowsOk(st.rows) && WriteOk(st, w) && Applicable(st, w)
    ensures forall i :: 0 <= i < |st.rows| && st.rows[i].core.result.Some? ==> Apply(st, w).rows[i] == st.rows[i]
  {
    ApplyRows(st, w);
    if w.Wait? {
      assert RowOk(st.rows, st.rows[w.id]);
    }
  }

  /** A write that touches nothing an instance holds does not disturb it. */
  lemma WriteUndisturbing(st: Store, w: Write, pc: Pc)
    requires RowsOk(st.rows) && WriteOk(st, w) && Applicable(st, w) && Admits(st, w)
    requires HeldWallet(pc).Some? ==> TouchedWallet(w) != HeldWallet(pc)
    requires HeldRow(pc).Some? ==> TouchedRow(w) != HeldRow(pc)
    ensures Undisturbed(st, Apply(st, w), pc)
  {
    ApplyRows(st, w);
    ApplyWallets(st, w);
    var st' := Apply(st, w);
    forall i | 0 <= i < |st.rows| && st.rows[i].state.status != PENDING
      ensures st'.rows[i].state.status != PENDING
      ensures Terminal(st.rows[i].state.status) ==> Terminal(st'.rows[i].state.status)
    {
      if TouchedRow(w) == Some(i) && w.Settle? {
        assert st'.rows[i].state.status == w.status;
        assert Terminal(w.status);
      }
    }
    ResultFixesRow(st, w);
  }
}
