/** Facts about runs: how one state of a run relates to a later one. */
module Runs {
  import opened Results
  import opened Transactions
  import opened Tables
  import opened Machine
  import opened Invariants
  import opened StoreProofs
  import opened ActorProofs
  import opened SystemProofs

  /** Rows keep their fixed columns, recorded results are final, ledger and outbox are append-only. */
  ghost predicate Evolves(st: Store, st': Store) {
    && Grows(st.rows, st'.rows)
    && (forall i :: 0 <= i < |st.rows| && st.rows[i].core.result.Some? ==> st'.rows[i] == st.rows[i])
    && st.ledger <= st'.ledger
    && st.outbox <= st'.outbox
  }

  /** The store changes only by committing one well-formed write. */
  ghost predicate ByWrite(s: Sys, s': Sys) {
    s'.store == s.store ||
    exists w :: WriteOk(s.store, w) && Applicable(s.store, w) && Admits(s.store, w) && s'.store == Apply(s.store, w)
  }

  lemma NextByWrite(s: Sys, l: Label)
    requires Inv(s)
    ensures ByWrite(s, Next(s, l))
  {
    match l {
      case Step(a, o) =>
        if a in s.actors {
          assert PcOk(s.store, s.actors[a].call, s.actors[a].pc);
        }
      case ForeignPending(core) =>
        if CoreOk(core) && core.result.None? {
          assert WriteOk(s.store, Insert(RowOf(core, PENDING, NO_FAILURE, None), None));
        }
      case ForeignSettle(id, status) =>
        if id < |s.store.rows| && ForeignWrite(s.store, id, status).Some? {
          ForeignWriteOk(s.store, id, status);
        }
      case _ =>
    }
  }

  lemma WriteEvolves(st: Store, w: Write)
    requires RowsOk(st.rows) && WriteOk(st, w) && Applicable(st, w)
    ensures Evolves(st, Apply(st, w))
  {
    ApplyRows(st, w);
    ApplyLedger(st, w);
    ResultFixesRow(st, w);
  }

  lemma NextEvolves(s: Sys, l: Label)
    requires Inv(s)
    ensures Evolves(s.store, Next(s, l).store)
  {
    NextByWrite(s, l);
    if Next(s, l).store != s.store {
      var w :| WriteOk(s.store, w) && Applicable(s.store, w) && Admits(s.store, w)
        && Next(s, l).store == Apply(s.store, w);
      WriteEvolves(s.store, w);
    }
  }

  lemma {:induction false} ExecKeepsInv(s: Sys, labels: seq<Label>)
    requires Inv(s)
    ensures Inv(Exec(s, labels))
  {
    if labels != [] {
      ExecKeepsInv(s, labels[..|labels| - 1]);
      NextKeepsInv(Exec(s, labels[..|labels| - 1]), labels[|labels| - 1]);
    }
  }

  lemma {:induction false} ExecEvolves(s: Sys, labels: seq<Label>)
    requires Inv(s)
    ensures Evolves(s.store, Exec(s, labels).store)
  {
    if labels != [] {
      var front := labels[..|labels| - 1];
      ExecEvolves(s, front);
      ExecKeepsInv(s, front);
      NextEvolves(Exec(s, front), labels[|labels| - 1]);
      EvolvesTransitive(s.store, Exec(s, front).store, Exec(s, labels).store);
    }
  }

  lemma EvolvesTransitive(a: Store, b: Store, c: Store)
    requires Evolves(a, b) && Evolves(b, c)
    ensures Evolves(a, c)
  {
  }
}
