/** The invariant holds in every reachable state of every run. */
module SystemProofs {
  import opened Results
  import opened WalletAggregate
  import opened Transactions
  import opened Tables
  import opened Machine
  import opened Invariants
  import opened StoreProofs
  import opened ActorProofs

  // ---------------------------------------------------------------- locks

  lemma RefuseLocks(core: Core, parked: Option<nat>, failure: FailureCode)
    ensures HeldWallet(Refuse(core, parked, failure)).None? && HeldRow(Refuse(core, parked, failure)) == parked
  {
  }

  lemma WalletErrorLocks(job: Job, e: WalletError)
    ensures HeldWallet(OnWalletError(job, e)).None? && HeldRow(OnWalletError(job, e)).None?
  {
  }

  lemma DispatchLocks(req: Request, key: string)
    ensures HeldWallet(Dispatch(req, key)).None? && HeldRow(Dispatch(req, key)).None?
  {
    var prepared := Prepare(req, key);
    if prepared.Success? {
      RefuseLocks(prepared.value, None, MISSING_REFERENCE);
    }
  }

  lemma ReferenceLocks(core: Core, parked: Option<nat>, found: Option<nat>, rows: seq<Row>)
    requires found.Some? ==> found.value < |rows|
    ensures var pc := if parked.None? then OnReferenceDirect(core, found, rows)
              else OnReferenceDeferred(core, parked.value, found, rows);
            HeldWallet(pc).None? && HeldRow(pc) == parked
  {
  }

  /** A step takes at most the locks it asks for, and keeps at most those it has. */
  ghost predicate LocksCovered(call: Call, pc: Pc, pc': Pc) {
    && (HeldWallet(pc').Some? ==> HeldWallet(pc') == HeldWallet(pc) || HeldWallet(pc') == WantedWallet(pc))
    && (HeldRow(pc').Some? ==> HeldRow(pc') == HeldRow(pc) || HeldRow(pc') == WantedRow(call, pc))
  }

  lemma ReversalStepLocks(st: Store, call: Call, pc: Pc, o: Oracle)
    requires pc.FindReference? || pc.CheckReversed? || pc.Claim?
    ensures LocksCovered(call, pc, Advance(st, call, pc, o))
  {
    match pc {
      case FindReference(core, parked) =>
        ReferenceLocks(core, parked, FindExternal(st.rows, core.req.provider, core.req.reference, o.pick), st.rows);
      case CheckReversed(core, parked, ref, refRow) =>
      case Claim(tx) => if call.Resolve? { RefuseLocks(tx.core, Some(call.id), REFERENCE_NOT_FOUND); }
    }
  }

  lemma AdvanceLocks(st: Store, call: Call, pc: Pc, o: Oracle)
    ensures LocksCovered(call, pc, Advance(st, call, pc, o))
  {
    if pc.FindReference? || pc.CheckReversed? || pc.Claim? {
      ReversalStepLocks(st, call, pc, o);
    } else if pc.LockWallet? {
      LockWalletLocks(st, call, pc.job, o);
    } else if pc.Update? {
      WalletErrorLocks(pc.job, ConcurrentUpdate);
    } else if pc.CheckExternal? && call.Process? {
      DispatchLocks(call.req, call.key);
    }
  }

  lemma LockWalletLocks(st: Store, call: Call, job: Job, o: Oracle)
    ensures LocksCovered(call, LockWallet(job), Advance(st, call, LockWallet(job), o))
  {
    WalletErrorLocks(job, WalletNotFound);
    if job.core.req.wallet in st.wallets {
      var change := Change(st.wallets[job.core.req.wallet], job.dir, job.core.amount);
      if change.Failure? { WalletErrorLocks(job, change.error); }
    }
  }

  lemma CommitReleases(st: Store, w: Write, after: After)
    ensures HeldWallet(Committed(st, w, after)).None? && HeldRow(Committed(st, w, after)).None?
    ensures HeldWallet(Violated(w, after)).None? && HeldRow(Violated(w, after)).None?
  {
  }

  /** Moving one instance to a point whose locks were free or already its own keeps all locks exclusive. */
  lemma LocksStay(s: Sys, a: nat, pc: Pc)
    requires a in s.actors && WalletLocksExclusive(s) && RowLocksExclusive(s)
    requires HeldWallet(pc).Some? ==> WalletFree(s, a, HeldWallet(pc).value)
    requires HeldRow(pc).Some? ==> RowFree(s, a, HeldRow(pc).value)
    ensures WalletLocksExclusive(SetPc(s, a, pc)) && RowLocksExclusive(SetPc(s, a, pc))
  {
  }

  /** What an instance holds, no other instance holds. */
  lemma OwnLocksFree(s: Sys, a: nat)
    requires a in s.actors && WalletLocksExclusive(s) && RowLocksExclusive(s)
    ensures HeldWallet(s.actors[a].pc).Some? ==> WalletFree(s, a, HeldWallet(s.actors[a].pc).value)
    ensures HeldRow(s.actors[a].pc).Some? ==> RowFree(s, a, HeldRow(s.actors[a].pc).value)
  {
  }

  // ---------------------------------------------------------------- steps

  lemma LocalStepKeepsInv(s: Sys, a: nat, o: Oracle)
    requires Inv(s) && a in s.actors && !Blocked(s, a) && !s.actors[a].pc.Commit?
    ensures Inv(ActorStep(s, a, o))
  {
    var actor := s.actors[a];
    AdvanceOk(s.store, actor.call, actor.pc, o);
    AdvanceLocks(s.store, actor.call, actor.pc, o);
    OwnLocksFree(s, a);
    LocksStay(s, a, Advance(s.store, actor.call, actor.pc, o));
  }

  /** The rows and wallet that a commit touches are locked by the committing instance, or by nobody. */
  lemma CommitTouchesOwnLocks(s: Sys, a: nat, b: nat)
    requires ActorsOk(s) && WalletLocksExclusive(s) && RowLocksExclusive(s)
    requires a in s.actors && b in s.actors && a != b && s.actors[a].pc.Commit? && !Blocked(s, a)
    ensures var w, pc := s.actors[a].pc.write, s.actors[b].pc;
            && (HeldWallet(pc).Some? ==> TouchedWallet(w) != HeldWallet(pc))
            && (HeldRow(pc).Some? ==> TouchedRow(w) != HeldRow(pc))
  {
    OwnLocksFree(s, a);
    var pc := s.actors[a].pc;
    assert TouchedWallet(pc.write).Some? ==> HeldWallet(pc) == TouchedWallet(pc.write);
    assert TouchedRow(pc.write).Some? ==>
      HeldRow(pc) == TouchedRow(pc.write) || WantedRow(s.actors[a].call, pc) == TouchedRow(pc.write);
  }

  lemma OthersStay(s: Sys, a: nat, b: nat)
    requires RowsOk(s.store.rows) && ActorsOk(s) && WalletLocksExclusive(s) && RowLocksExclusive(s)
    requires a in s.actors && b in s.actors && a != b && s.actors[a].pc.Commit? && !Blocked(s, a)
    requires Applicable(s.store, s.actors[a].pc.write) && Admits(s.store, s.actors[a].pc.write)
    ensures PcOk(Apply(s.store, s.actors[a].pc.write), s.actors[b].call, s.actors[b].pc)
  {
    var w := s.actors[a].pc.write;
    assert PcOk(s.store, s.actors[a].call, s.actors[a].pc);
    CommitTouchesOwnLocks(s, a, b);
    WriteUndisturbing(s.store, w, s.actors[b].pc);
    PcStays(s.store, Apply(s.store, w), s.actors[b].call, s.actors[b].pc);
  }

  lemma LogExtended(s: Sys, w: Write)
    requires s.store == Serial(s.log) && Applicable(s.store, w) && Execute(s.store, w) == Apply(s.store, w)
    ensures Apply(s.store, w) == Serial(s.log + [w])
  {
    assert (s.log + [w])[..|s.log|] == s.log;
  }

  lemma CommitKeepsInstances(s: Sys, a: nat, o: Oracle)
    requires RowsOk(s.store.rows) && InstancesOk(s) && a in s.actors && !Blocked(s, a) && s.actors[a].pc.Commit?
    ensures InstancesOk(ActorStep(s, a, o))
  {
    var actor, w, after := s.actors[a], s.actors[a].pc.write, s.actors[a].pc.after;
    var s' := ActorStep(s, a, o);
    assert PcOk(s.store, actor.call, actor.pc);
    CommitReleases(s.store, w, after);
    LocksStay(s, a, s'.actors[a].pc);
    if Applicable(s.store, w) && Admits(s.store, w) {
      CommitKeepsActors(s, a, o);
    } else {
      ViolatedOk(s.store, actor.call, w, after);
    }
  }

  lemma CommitKeepsActors(s: Sys, a: nat, o: Oracle)
    requires RowsOk(s.store.rows) && InstancesOk(s) && a in s.actors && !Blocked(s, a) && s.actors[a].pc.Commit?
    requires Applicable(s.store, s.actors[a].pc.write) && Admits(s.store, s.actors[a].pc.write)
    ensures ActorsOk(ActorStep(s, a, o))
  {
    var actor, s' := s.actors[a], ActorStep(s, a, o);
    assert PcOk(s.store, actor.call, actor.pc);
    CommittedOk(s.store, actor.call, actor.pc.write, actor.pc.after);
    forall b | b in s'.actors
      ensures PcOk(s'.store, s'.actors[b].call, s'.actors[b].pc)
    {
      if b != a { OthersStay(s, a, b); }
    }
  }

  lemma CommitKeepsInv(s: Sys, a: nat, o: Oracle)
    requires Inv(s) && a in s.actors && !Blocked(s, a) && s.actors[a].pc.Commit?
    ensures Inv(ActorStep(s, a, o))
  {
    var w := s.actors[a].pc.write;
    CommitKeepsInstances(s, a, o);
    if Applicable(s.store, w) && Admits(s.store, w) {
      assert PcOk(s.store, s.actors[a].call, s.actors[a].pc);
      ApplyKeepsStore(s.store, w);
      LogExtended(s, w);
    }
  }

  /** A foreign write that is well-formed and touches no locked row keeps the invariant. */
  lemma ForeignKeepsInv(s: Sys, w: Write)
    requires Inv(s) && WriteOk(s.store, w)
    requires forall b :: b in s.actors && HeldWallet(s.actors[b].pc).Some? ==>
               TouchedWallet(w) != HeldWallet(s.actors[b].pc)
    requires forall b :: b in s.actors && HeldRow(s.actors[b].pc).Some? ==> TouchedRow(w) != HeldRow(s.actors[b].pc)
    ensures Inv(ForeignStep(s, w))
  {
    if Applicable(s.store, w) && Admits(s.store, w) {
      ApplyKeepsStore(s.store, w);
      LogExtended(s, w);
      forall b | b in s.actors
        ensures PcOk(Apply(s.store, w), s.actors[b].call, s.actors[b].pc)
      {
        WriteUndisturbing(s.store, w, s.actors[b].pc);
        PcStays(s.store, Apply(s.store, w), s.actors[b].call, s.actors[b].pc);
      }
    }
  }

  lemma ForeignWriteOk(st: Store, id: nat, status: Status)
    requires RowsOk(st.rows) && id < |st.rows| && ForeignWrite(st, id, status).Some?
    ensures WriteOk(st, ForeignWrite(st, id, status).value)
    ensures TouchedWallet(ForeignWrite(st, id, status).value).Some? ==>
              TouchedWallet(ForeignWrite(st, id, status).value).value == st.rows[id].core.req.wallet
  {
    assert RowOk(st.rows, st.rows[id]);
  }

  /** No instance holds a PENDING row. */
  lemma PendingRowsUnheld(s: Sys, id: nat, b: nat)
    requires ActorsOk(s) && id < |s.store.rows| && s.store.rows[id].state.status == PENDING && b in s.actors
    ensures HeldRow(s.actors[b].pc) != Some(id)
  {
    assert PcOk(s.store, s.actors[b].call, s.actors[b].pc);
  }

  lemma ForeignSettleKeepsInv(s: Sys, id: nat, status: Status)
    requires Inv(s)
    ensures Inv(Next(s, ForeignSettle(id, status)))
  {
    if id < |s.store.rows| && ForeignWrite(s.store, id, status).Some? {
      var w := ForeignWrite(s.store, id, status).value;
      ForeignWriteOk(s.store, id, status);
      forall b | b in s.actors
        ensures HeldRow(s.actors[b].pc) != Some(id)
      {
        PendingRowsUnheld(s, id, b);
      }
      if !WaitsForWallet(s, w) {
        ForeignKeepsInv(s, w);
      }
    }
  }

  lemma ArriveKeepsLocks(s: Sys, a: nat, call: Call)
    requires WalletLocksExclusive(s) && RowLocksExclusive(s)
    ensures WalletLocksExclusive(Next(s, Arrive(a, call))) && RowLocksExclusive(Next(s, Arrive(a, call)))
  {
    assert HeldWallet(EntryPoint(call)).None? && HeldRow(EntryPoint(call)).None?;
  }

  lemma ArriveKeepsActors(s: Sys, a: nat, call: Call)
    requires ActorsOk(s)
    ensures ActorsOk(Next(s, Arrive(a, call)))
  {
    assert PcOk(s.store, call, EntryPoint(call));
  }

  lemma CrashKeepsInstances(s: Sys, a: nat)
    requires InstancesOk(s)
    ensures InstancesOk(Next(s, Crash(a)))
  {
  }

  lemma StepKeepsInv(s: Sys, a: nat, o: Oracle)
    requires Inv(s)
    ensures Inv(Next(s, Step(a, o)))
  {
    if a in s.actors && !Blocked(s, a) {
      if s.actors[a].pc.Commit? {
        CommitKeepsInv(s, a, o);
      } else {
        LocalStepKeepsInv(s, a, o);
      }
    }
  }

  lemma NextKeepsInv(s: Sys, l: Label)
    requires Inv(s)
    ensures Inv(Next(s, l))
  {
    match l {
      case Arrive(a, call) =>
        ArriveKeepsActors(s, a, call);
        ArriveKeepsLocks(s, a, call);
      case Step(a, o) => StepKeepsInv(s, a, o);
      case Crash(a) => CrashKeepsInstances(s, a);
      case ForeignPending(core) => ForeignKeepsInvPending(s, core);
      case ForeignSettle(id, status) => ForeignSettleKeepsInv(s, id, status);
    }
  }

  lemma ForeignKeepsInvPending(s: Sys, core: Core)
    requires Inv(s)
    ensures Inv(Next(s, ForeignPending(core)))
  {
    if CoreOk(core) && core.result.None? {
      ForeignKeepsInv(s, Insert(RowOf(core, PENDING, NO_FAILURE, None), None));
    }
  }

  lemma InitInv()
    ensures Inv(INIT)
  {
  }

  /** The invariant holds after every sequence of steps. */
  lemma {:induction false} ReachableInv(labels: seq<Label>)
    ensures Inv(Exec(INIT, labels))
  {
    if labels == [] {
      InitInv();
    } else {
      ReachableInv(labels[..|labels| - 1]);
      NextKeepsInv(Exec(INIT, labels[..|labels| - 1]), labels[|labels| - 1]);
    }
  }
}
