/** The invariant of exclusive runs. */
module ExclusiveProofs {
  import opened Results
  import opened WalletAggregate
  import opened Transactions
  import opened Tables
  import opened Machine
  import opened Invariants
  import opened StoreProofs
  import opened SystemProofs
  import opened Exclusive

  // ---------------------------------------------------------------- own steps

  lemma ReferenceR(rows: seq<Row>, call: Call, core: Core, parked: Option<nat>, found: Option<nat>)
    requires Belongs(rows, call, core, parked) && PcR(rows, call, FindReference(core, parked))
    requires found.Some? ==> found.value < |rows|
    ensures PcR(rows, call, if parked.None? then OnReferenceDirect(core, found, rows)
                            else OnReferenceDeferred(core, parked.value, found, rows))
  {
  }

  lemma WalletErrorR(rows: seq<Row>, call: Call, job: Job, e: WalletError)
    requires JobOk(rows, call, job)
    ensures PcR(rows, call, OnWalletError(job, e))
  {
  }

  lemma DispatchR(rows: seq<Row>, req: Request, key: string)
    ensures PcR(rows, Process(req, key), Dispatch(req, key))
  {
  }

  lemma ReversalStepR(st: Store, call: Call, pc: Pc, o: Oracle)
    requires pc.FindReference? || pc.CheckReversed? || pc.Claim? || pc.FindParked?
    requires PcOk(st, call, pc) && PcR(st.rows, call, pc)
    ensures PcR(st.rows, call, Advance(st, call, pc, o))
  {
    match pc {
      case FindReference(core, parked) =>
        ReferenceR(st.rows, call, core, parked, FindExternal(st.rows, core.req.provider, core.req.reference, o.pick));
      case CheckReversed(core, parked, ref, refRow) =>
      case Claim(tx) =>
      case FindParked =>
    }
  }

  lemma WalletStepR(st: Store, call: Call, pc: Pc, o: Oracle)
    requires pc.LockWallet? || pc.Update?
    requires PcOk(st, call, pc) && PcR(st.rows, call, pc)
    ensures PcR(st.rows, call, Advance(st, call, pc, o))
  {
    forall e
      ensures PcR(st.rows, call, OnWalletError(pc.job, e))
    {
      WalletErrorR(st.rows, call, pc.job, e);
    }
  }

  lemma AdvanceR(st: Store, call: Call, pc: Pc, o: Oracle)
    requires PcOk(st, call, pc) && PcR(st.rows, call, pc)
    ensures PcR(st.rows, call, Advance(st, call, pc, o))
  {
    if pc.FindReference? || pc.CheckReversed? || pc.Claim? || pc.FindParked? {
      ReversalStepR(st, call, pc, o);
    } else if pc.LockWallet? || pc.Update? {
      WalletStepR(st, call, pc, o);
    } else if pc.CheckExternal? {
      DispatchR(st.rows, call.req, call.key);
    }
  }

  lemma CommittedR(st: Store, call: Call, w: Write, after: After)
    requires PcOk(st, call, Commit(w, after)) && PcR(st.rows, call, Commit(w, after)) && Applicable(st, w)
    ensures PcR(Apply(st, w).rows, call, Committed(st, w, after))
  {
    ApplyRows(st, w);
  }

  // ---------------------------------------------------------------- other instances

  /** Finished rows, and the row that this instance resolves, are as before. */
  ghost predicate Respected(rows: seq<Row>, rows': seq<Row>, actor: Actor) {
    && |rows| <= |rows'|
    && (forall i :: 0 <= i < |rows| && Terminal(rows[i].state.status) ==> rows'[i] == rows[i])
    && (Resolving(actor).Some? && Resolving(actor).value < |rows| ==>
         rows'[Resolving(actor).value] == rows[Resolving(actor).value])
  }

  lemma PcRStays(st: Store, rows': seq<Row>, actor: Actor)
    requires PcOk(st, actor.call, actor.pc) && PcR(st.rows, actor.call, actor.pc) && Respected(st.rows, rows', actor)
    ensures PcR(rows', actor.call, actor.pc)
  {
  }

  lemma WriteRespects(s: Sys, a: nat, b: nat)
    requires ActorsOk(s) && NoOverlap(s)
    requires a in s.actors && b in s.actors && a != b && s.actors[a].pc.Commit?
    requires var w := s.actors[a].pc.write; Applicable(s.store, w) && WriteR(s.store.rows, w)
    ensures Respected(s.store.rows, Apply(s.store, s.actors[a].pc.write).rows, s.actors[b])
  {
    var w := s.actors[a].pc.write;
    assert PcOk(s.store, s.actors[a].call, s.actors[a].pc);
    ApplyRows(s.store, w);
    TerminalFixed(s.store, w);
    assert TouchedRow(w).Some? ==> Resolving(s.actors[a]) == TouchedRow(w);
  }

  // ---------------------------------------------------------------- the system

  lemma LocalStepKeepsR(s: Sys, a: nat, o: Oracle)
    requires ActorsOk(s) && InvR(s) && a in s.actors && !s.actors[a].pc.Commit?
    ensures InvR(ActorStep(s, a, o))
  {
    AdvanceR(s.store, s.actors[a].call, s.actors[a].pc, o);
  }

  lemma OthersKeepR(s: Sys, a: nat, b: nat)
    requires ActorsOk(s) && NoOverlap(s) && a in s.actors && b in s.actors && a != b && s.actors[a].pc.Commit?
    requires PcR(s.store.rows, s.actors[a].call, s.actors[a].pc) && PcR(s.store.rows, s.actors[b].call, s.actors[b].pc)
    requires Applicable(s.store, s.actors[a].pc.write)
    ensures PcR(Apply(s.store, s.actors[a].pc.write).rows, s.actors[b].call, s.actors[b].pc)
  {
    WriteRespects(s, a, b);
    assert PcOk(s.store, s.actors[b].call, s.actors[b].pc);
    PcRStays(s.store, Apply(s.store, s.actors[a].pc.write).rows, s.actors[b]);
  }

  lemma OwnCommitR(s: Sys, a: nat, o: Oracle)
    requires ActorsOk(s) && ActorsR(s) && a in s.actors && s.actors[a].pc.Commit?
    ensures var s' := ActorStep(s, a, o); PcR(s'.store.rows, s'.actors[a].call, s'.actors[a].pc)
  {
    var actor := s.actors[a];
    assert PcOk(s.store, actor.call, actor.pc) && PcR(s.store.rows, actor.call, actor.pc);
    if Applicable(s.store, actor.pc.write) {
      CommittedR(s.store, actor.call, actor.pc.write, actor.pc.after);
    }
    ViolatedR(s.store.rows, actor.call, actor.pc.write, actor.pc.after);
  }

  lemma ViolatedR(rows: seq<Row>, call: Call, w: Write, after: After)
    ensures PcR(rows, call, Violated(w, after))
  {
  }

  lemma CommitKeepsActorsR(s: Sys, a: nat, o: Oracle)
    requires ActorsOk(s) && ActorsR(s) && NoOverlap(s) && a in s.actors && s.actors[a].pc.Commit?
    ensures ActorsR(ActorStep(s, a, o))
  {
    var s', w := ActorStep(s, a, o), s.actors[a].pc.write;
    OwnCommitR(s, a, o);
    forall b | b in s'.actors
      ensures PcR(s'.store.rows, s'.actors[b].call, s'.actors[b].pc)
    {
      if b != a && Applicable(s.store, w) && Admits(s.store, w) { OthersKeepR(s, a, b); }
    }
  }

  lemma CommitKeepsR(s: Sys, a: nat, o: Oracle)
    requires RowsOk(s.store.rows) && EntriesOk(s.store) && ActorsOk(s) && InvR(s) && NoOverlap(s)
    requires a in s.actors && s.actors[a].pc.Commit?
    ensures InvR(ActorStep(s, a, o))
  {
    var w := s.actors[a].pc.write;
    CommitKeepsActorsR(s, a, o);
    if Applicable(s.store, w) && Admits(s.store, w) {
      assert PcOk(s.store, s.actors[a].call, s.actors[a].pc) && PcR(s.store.rows, s.actors[a].call, s.actors[a].pc);
      WriteKeepsStoreR(s.store, w);
    }
  }

  lemma ForeignKeepsR(s: Sys, w: Write)
    requires RowsOk(s.store.rows) && EntriesOk(s.store) && ActorsOk(s) && InvR(s) && WriteOk(s.store, w)
    requires WriteR(s.store.rows, w)
    requires TouchedRow(w).Some? ==> s.store.rows[TouchedRow(w).value].state.status == PENDING
    ensures InvR(ForeignStep(s, w))
  {
    if Applicable(s.store, w) && Admits(s.store, w) {
      WriteKeepsStoreR(s.store, w);
      ApplyRows(s.store, w);
      TerminalFixed(s.store, w);
      forall b | b in s.actors
        ensures PcR(Apply(s.store, w).rows, s.actors[b].call, s.actors[b].pc)
      {
        assert PcOk(s.store, s.actors[b].call, s.actors[b].pc);
        ForeignRespects(s.store, w, s.actors[b]);
      }
    }
  }

  lemma ForeignRespects(st: Store, w: Write, actor: Actor)
    requires PcOk(st, actor.call, actor.pc) && PcR(st.rows, actor.call, actor.pc)
    requires Applicable(st, w) && WriteOk(st, w) && WriteR(st.rows, w)
    requires TouchedRow(w).Some? ==> st.rows[TouchedRow(w).value].state.status == PENDING
    ensures PcR(Apply(st, w).rows, actor.call, actor.pc)
  {
    ApplyRows(st, w);
    TerminalFixed(st, w);
    if actor.pc.FindParked? || actor.pc.Done? {
    } else {
      assert Resolving(actor).Some? ==>
        Resolving(actor).value < |st.rows| && st.rows[Resolving(actor).value].state.status != PENDING;
      PcRStays(st, Apply(st, w).rows, actor);
    }
  }

  lemma ForeignWriteR(st: Store, id: nat, status: Status)
    requires RowsOk(st.rows) && id < |st.rows| && ForeignWrite(st, id, status).Some?
    ensures var w := ForeignWrite(st, id, status).value;
            WriteOk(st, w) && WriteR(st.rows, w) && TouchedRow(w) == Some(id) && st.rows[id].state.status == PENDING
  {
    ForeignWriteOk(st, id, status);
  }

  lemma NextKeepsR(s: Sys, l: Label)
    requires RowsOk(s.store.rows) && EntriesOk(s.store) && ActorsOk(s) && InvR(s) && NoOverlap(s)
    ensures InvR(Next(s, l))
  {
    match l {
      case Step(a, o) =>
        if a in s.actors && !Blocked(s, a) {
          if s.actors[a].pc.Commit? {
            CommitKeepsR(s, a, o);
          } else {
            LocalStepKeepsR(s, a, o);
          }
        }
      case ForeignPending(core) =>
        if CoreOk(core) && core.result.None? {
          ForeignKeepsR(s, Insert(RowOf(core, PENDING, NO_FAILURE, None), None));
        }
      case ForeignSettle(id, status) =>
        if id < |s.store.rows| && ForeignWrite(s.store, id, status).Some? {
          ForeignWriteR(s.store, id, status);
          ForeignKeepsR(s, ForeignWrite(s.store, id, status).value);
        }
      case _ =>
    }
  }

  lemma {:induction false} ReachableR(labels: seq<Label>)
    requires ExclusiveRun(labels)
    ensures InvR(Exec(INIT, labels))
  {
    if labels != [] {
      var front := labels[..|labels| - 1];
      PrefixExclusive(labels, |labels| - 1);
      ReachableR(front);
      ReachableInv(front);
      NextKeepsR(Exec(INIT, front), labels[|labels| - 1]);
    }
  }

  lemma {:induction false} PrefixExclusive(labels: seq<Label>, n: nat)
    requires ExclusiveRun(labels) && n <= |labels|
    ensures ExclusiveRun(labels[..n]) && NoOverlap(Exec(INIT, labels[..n]))
  {
    assert forall k :: 0 <= k <= n ==> labels[..n][..k] == labels[..k];
  }
}
