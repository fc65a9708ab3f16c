/**
 Reversals and what they refer to, in runs in which (provider, external id) stays unique.

 The direct path validates player, wallet, currency and round against the reference; the resolver does not
 repeat this. Uniqueness is what makes the reference it finds the one that was validated.
 */
module References {
  import opened Results
  import opened Transactions
  import opened Tables
  import opened Machine
  import opened Invariants
  import opened StoreProofs
  import opened SystemProofs
  import opened Runs
  import opened ExternalIds

  ghost predicate Validated(rows: seq<Row>, c: Core, r: nat) {
    r < |rows| && ValidateReference(c, rows[r].core).None?
  }

  /** The reference of a parked row, and that of a settled reversal, is an earlier row that passed validation. */
  ghost predicate RowU(rows: seq<Row>, i: nat)
    requires i < |rows|
  {
    && (rows[i].state.status == PENDING_REFERENCE ==>
          forall r ::
            0 <= r < |rows| && HasExternal(rows[r].core, rows[i].core.req.provider, rows[i].core.req.reference) ==>
            r < i && Validated(rows, rows[i].core, r))
    && (rows[i].state.ref.Some? ==>
         rows[i].state.ref.value < i && Validated(rows, rows[i].core, rows[i].state.ref.value))
  }

  ghost predicate RowsU(rows: seq<Row>) {
    forall i :: 0 <= i < |rows| ==> RowU(rows, i)
  }

  ghost predicate ReferenceValidated(rows: seq<Row>, c: Core) {
    exists r :: 0 <= r < |rows| && HasExternal(rows[r].core, c.req.provider, c.req.reference) && Validated(rows, c, r)
  }

  ghost predicate InsertU(rows: seq<Row>, row: Row) {
    && (row.state.ref.Some? ==> Validated(rows, row.core, row.state.ref.value))
    && (row.state.status == PENDING_REFERENCE ==> ReferenceValidated(rows, row.core))
  }

  ghost predicate JobU(rows: seq<Row>, job: Job) {
    job.parked.None? && job.ref.Some? ==> Validated(rows, job.core, job.ref.value)
  }

  ghost predicate PcU(rows: seq<Row>, pc: Pc) {
    match pc
    case CheckReversed(core, parked, ref, refRow) => parked.None? ==> Validated(rows, core, ref)
    case LockWallet(job) => JobU(rows, job)
    case Update(job, _, _) => JobU(rows, job)
    case Commit(Insert(row, _), _) => InsertU(rows, row)
    case _ => true
  }

  ghost predicate ActorsU(s: Sys) {
    forall a :: a in s.actors ==> PcU(s.store.rows, s.actors[a].pc)
  }

  ghost predicate InvU(s: Sys) {
    RowsU(s.store.rows) && ActorsU(s)
  }

  // ---------------------------------------------------------------- rows

  /** A row that was parked with a reference keeps it as its only match. */
  lemma ParkedStaysU(rows: seq<Row>, rows': seq<Row>, i: nat)
    requires Grows(rows, rows') && UniqueExternal(rows') && i < |rows| && rows'[i] == rows[i]
    requires RowOk(rows, rows[i]) && RowU(rows, i)
    ensures RowU(rows', i)
  {
    if rows[i].state.status == PENDING_REFERENCE {
      var c := rows[i].core;
      var r :| 0 <= r < |rows| && HasExternal(rows[r].core, c.req.provider, c.req.reference);
      forall q | 0 <= q < |rows'| && HasExternal(rows'[q].core, c.req.provider, c.req.reference)
        ensures q < i && Validated(rows', c, q)
      {
        assert SameExternal(rows'[q].core, rows'[r].core);
        assert Validated(rows, c, r);
      }
    }
  }

  lemma InsertedU(rows: seq<Row>, row: Row)
    requires InsertU(rows, row) && UniqueExternal(rows + [row])
    ensures RowU(rows + [row], |rows|)
  {
    var rows', i, c := rows + [row], |rows|, row.core;
    if row.state.status == PENDING_REFERENCE {
      var r :| 0 <= r < |rows| && HasExternal(rows[r].core, c.req.provider, c.req.reference) && Validated(rows, c, r);
      forall q | 0 <= q < |rows'| && HasExternal(rows'[q].core, c.req.provider, c.req.reference)
        ensures q < i && Validated(rows', c, q)
      {
        assert rows'[r] == rows[r];
        assert SameExternal(rows'[q].core, rows'[r].core);
      }
    }
  }

  lemma SettledU(st: Store, w: Write)
    requires w.Settle? && WriteOk(st, w) && RowsOk(st.rows) && RowsU(st.rows)
    ensures RowU(Apply(st, w).rows, w.id)
  {
    ApplyRows(st, w);
    assert RowOk(st.rows, st.rows[w.id]) && RowU(st.rows, w.id);
    var rows' := Apply(st, w).rows;
    assert rows'[w.id].state.status != PENDING_REFERENCE;
    if w.ref.Some? {
      assert w.move.Some?;
      assert RefFits(st.rows, st.rows[w.id].core, w.ref.value);
    }
  }

  lemma WaitU(st: Store, w: Write)
    requires w.Wait? && WriteOk(st, w) && RowsU(st.rows)
    ensures RowU(Apply(st, w).rows, w.id)
  {
    ApplyRows(st, w);
    var rows' := Apply(st, w).rows;
    assert RowU(st.rows, w.id);
    assert forall r :: 0 <= r < |rows'| ==> rows'[r].core == st.rows[r].core;
  }

  lemma WriteKeepsU(st: Store, w: Write)
    requires RowsOk(st.rows) && RowsU(st.rows) && WriteOk(st, w) && Applicable(st, w)
    requires UniqueExternal(Apply(st, w).rows)
    requires w.Insert? ==> InsertU(st.rows, w.row)
    ensures RowsU(Apply(st, w).rows)
  {
    ApplyRows(st, w);
    var rows' := Apply(st, w).rows;
    forall i | 0 <= i < |rows'|
      ensures RowU(rows', i)
    {
      if i < |st.rows| && TouchedRow(w) != Some(i) {
        assert RowOk(st.rows, st.rows[i]) && RowU(st.rows, i);
        ParkedStaysU(st.rows, rows', i);
      } else if w.Settle? {
        SettledU(st, w);
      } else if w.Wait? {
        WaitU(st, w);
      } else if w.Insert? {
        assert rows' == st.rows + [w.row];
        InsertedU(st.rows, w.row);
      }
    }
  }

  // ---------------------------------------------------------------- instances

  lemma GrowsKeepsPcU(rows: seq<Row>, rows': seq<Row>, pc: Pc)
    requires Grows(rows, rows') && PcU(rows, pc)
    ensures PcU(rows', pc)
  {
    if pc.Commit? && pc.write.Insert? && pc.write.row.state.status == PENDING_REFERENCE {
      var c := pc.write.row.core;
      var r :| 0 <= r < |rows| && HasExternal(rows[r].core, c.req.provider, c.req.reference) && Validated(rows, c, r);
      assert HasExternal(rows'[r].core, c.req.provider, c.req.reference) && Validated(rows', c, r);
    }
  }

  lemma ReferenceDirectU(rows: seq<Row>, core: Core, found: Option<nat>)
    requires found.Some? ==>
               found.value < |rows| && HasExternal(rows[found.value].core, core.req.provider, core.req.reference)
    ensures PcU(rows, OnReferenceDirect(core, found, rows))
  {
    if found.Some? && ValidateReference(core, rows[found.value].core).None? {
      assert Validated(rows, core, found.value);
      assert ReferenceValidated(rows, core);
    }
  }

  lemma AdvanceU(st: Store, call: Call, pc: Pc, o: Oracle)
    requires PcOk(st, call, pc) && PcU(st.rows, pc)
    ensures PcU(st.rows, Advance(st, call, pc, o))
  {
    if pc.FindReference? {
      FindReferenceU(st, call, pc, o);
    } else if pc.CheckReversed? || pc.LockWallet? || pc.Update? {
      JobStepU(st, call, pc, o);
    }
  }

  lemma FindReferenceU(st: Store, call: Call, pc: Pc, o: Oracle)
    requires pc.FindReference?
    ensures PcU(st.rows, Advance(st, call, pc, o))
  {
    if pc.parked.None? {
      ReferenceDirectU(st.rows, pc.core, FindExternal(st.rows, pc.core.req.provider, pc.core.req.reference, o.pick));
    }
  }

  lemma JobStepU(st: Store, call: Call, pc: Pc, o: Oracle)
    requires (pc.CheckReversed? || pc.LockWallet? || pc.Update?) && PcU(st.rows, pc)
    ensures PcU(st.rows, Advance(st, call, pc, o))
  {
  }

  // ---------------------------------------------------------------- the system

  lemma OwnCommitU(s: Sys, a: nat, o: Oracle)
    requires a in s.actors && s.actors[a].pc.Commit?
    ensures PcU(ActorStep(s, a, o).store.rows, ActorStep(s, a, o).actors[a].pc)
  {
  }

  lemma CommitKeepsActorsU(s: Sys, a: nat, o: Oracle)
    requires ActorsU(s) && a in s.actors && s.actors[a].pc.Commit?
    ensures ActorsU(ActorStep(s, a, o))
  {
    var s', w := ActorStep(s, a, o), s.actors[a].pc.write;
    OwnCommitU(s, a, o);
    if Applicable(s.store, w) { ApplyRows(s.store, w); }
    forall b | b in s'.actors
      ensures PcU(s'.store.rows, s'.actors[b].pc)
    {
      if b != a { GrowsKeepsPcU(s.store.rows, s'.store.rows, s.actors[b].pc); }
    }
  }

  lemma CommitKeepsU(s: Sys, a: nat, o: Oracle)
    requires RowsOk(s.store.rows) && ActorsOk(s) && InvU(s) && a in s.actors && s.actors[a].pc.Commit?
    requires UniqueExternal(ActorStep(s, a, o).store.rows)
    ensures InvU(ActorStep(s, a, o))
  {
    CommitKeepsActorsU(s, a, o);
    var w := s.actors[a].pc.write;
    if Applicable(s.store, w) && Admits(s.store, w) {
      assert PcOk(s.store, s.actors[a].call, s.actors[a].pc) && PcU(s.store.rows, s.actors[a].pc);
      WriteKeepsU(s.store, w);
    }
  }

  lemma ForeignKeepsU(s: Sys, w: Write)
    requires RowsOk(s.store.rows) && InvU(s) && WriteOk(s.store, w) && (w.Insert? ==> InsertU(s.store.rows, w.row))
    requires UniqueExternal(ForeignStep(s, w).store.rows)
    ensures InvU(ForeignStep(s, w))
  {
    if Applicable(s.store, w) && Admits(s.store, w) {
      WriteKeepsU(s.store, w);
      ApplyRows(s.store, w);
      forall b | b in s.actors
        ensures PcU(Apply(s.store, w).rows, s.actors[b].pc)
      {
        GrowsKeepsPcU(s.store.rows, Apply(s.store, w).rows, s.actors[b].pc);
      }
    }
  }

  lemma StepKeepsU(s: Sys, a: nat, o: Oracle)
    requires RowsOk(s.store.rows) && ActorsOk(s) && InvU(s) && a in s.actors
    requires UniqueExternal(ActorStep(s, a, o).store.rows)
    ensures InvU(ActorStep(s, a, o))
  {
    if s.actors[a].pc.Commit? {
      CommitKeepsU(s, a, o);
    } else {
      assert PcOk(s.store, s.actors[a].call, s.actors[a].pc);
      AdvanceU(s.store, s.actors[a].call, s.actors[a].pc, o);
    }
  }

  lemma NextKeepsU(s: Sys, l: Label)
    requires RowsOk(s.store.rows) && ActorsOk(s) && InvU(s) && UniqueExternal(Next(s, l).store.rows)
    ensures InvU(Next(s, l))
  {
    match l {
      case Step(a, o) => if a in s.actors && !Blocked(s, a) { StepKeepsU(s, a, o); }
      case ForeignPending(core) =>
        if CoreOk(core) && core.result.None? {
          ForeignKeepsU(s, Insert(RowOf(core, PENDING, NO_FAILURE, None), None));
        }
      case ForeignSettle(id, status) =>
        if id < |s.store.rows| && ForeignWrite(s.store, id, status).Some? {
          ForeignWriteOk(s.store, id, status);
          if Next(s, l) != s { ForeignKeepsU(s, ForeignWrite(s.store, id, status).value); }
        }
      case _ =>
    }
  }

  lemma UniqueBackwards(rows: seq<Row>, rows': seq<Row>)
    requires Grows(rows, rows') && UniqueExternal(rows')
    ensures UniqueExternal(rows)
  {
    forall i, j | 0 <= i < |rows| && 0 <= j < |rows| && SameExternal(rows[i].core, rows[j].core)
      ensures i == j
    {
      assert SameExternal(rows'[i].core, rows'[j].core);
    }
  }

  /** It suffices that the pair is unique in the last state, because rows are never deleted. */
  lemma {:induction false} ReachableU(labels: seq<Label>)
    requires UniqueExternal(Exec(INIT, labels).store.rows)
    ensures InvU(Exec(INIT, labels))
  {
    if labels != [] {
      var front := labels[..|labels| - 1];
      ReachableInv(front);
      NextEvolves(Exec(INIT, front), labels[|labels| - 1]);
      UniqueBackwards(Exec(INIT, front).store.rows, Exec(INIT, labels).store.rows);
      ReachableU(front);
      NextKeepsU(Exec(INIT, front), labels[|labels| - 1]);
    }
  }
}
