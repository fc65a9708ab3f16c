/**
 Where outcomes come from, in every interleaving: why parked rows are settled, what a WIN refers to, whose wallet it is.
 */
module Provenance {
  import opened Results
  import opened MoneyValue
  import opened WalletAggregate
  import opened Transactions
  import opened Tables
  import opened Machine
  import opened Invariants
  import opened StoreProofs
  import opened SystemProofs
  import opened Runs
  import opened ExternalIds
  import opened References
  import opened DecisionTables

  // ---------------------------------------------------------------- parked rows are settled for a reason

  /** Some row that row `id` refers to has reached an end. */
  ghost predicate ReferenceEnded(rows: seq<Row>, id: nat) {
    id < |rows| &&
    exists r :: 0 <= r < |rows| && Matches(rows[r], rows[id].core.req.provider, rows[id].core.req.reference)
                && rows[r].state.status in {PROCESSED, REJECTED, FAILED}
  }

  /** The resolver has waited long enough. */
  ghost predicate Patient(rows: seq<Row>, id: nat) {
    ReferenceEnded(rows, id) || (id < |rows| && rows[id].state.attempts >= 10)
  }

  ghost predicate PcPatient(rows: seq<Row>, call: Call, pc: Pc) {
    match pc
    case Claim(tx) => call.Resolve? && call.id < |rows| && tx.state.attempts <= rows[call.id].state.attempts
    case CheckReversed(_, Some(id), _, _) => Patient(rows, id)
    case LockWallet(job) => job.parked.Some? ==> Patient(rows, job.parked.value)
    case Update(job, _, _) => job.parked.Some? ==> Patient(rows, job.parked.value)
    case Commit(Settle(id, _, _, _, _), _) => Patient(rows, id)
    case Commit(Wait(_), after) => after == Return
    case _ => true
  }

  ghost predicate AllPatient(s: Sys) {
    forall a :: a in s.actors ==> PcPatient(s.store.rows, s.actors[a].call, s.actors[a].pc)
  }

  /** Ends stay ends, and attempts are only counted up. */
  ghost predicate Onward(rows: seq<Row>, rows': seq<Row>) {
    && Grows(rows, rows')
    && forall i :: 0 <= i < |rows| ==>
         && rows[i].state.attempts <= rows'[i].state.attempts
         && (rows[i].state.status in {PROCESSED, REJECTED, FAILED} ==>
               rows'[i].state.status in {PROCESSED, REJECTED, FAILED})
  }

  lemma OnwardPatient(rows: seq<Row>, rows': seq<Row>, id: nat)
    requires Onward(rows, rows') && Patient(rows, id)
    ensures Patient(rows', id)
  {
    if ReferenceEnded(rows, id) {
      var r :| 0 <= r < |rows| && Matches(rows[r], rows[id].core.req.provider, rows[id].core.req.reference)
        && rows[r].state.status in {PROCESSED, REJECTED, FAILED};
      assert Matches(rows'[r], rows'[id].core.req.provider, rows'[id].core.req.reference);
    }
  }

  lemma OnwardPc(rows: seq<Row>, rows': seq<Row>, call: Call, pc: Pc)
    requires Onward(rows, rows') && PcPatient(rows, call, pc)
    ensures PcPatient(rows', call, pc)
  {
    forall id: nat | Patient(rows, id)
      ensures Patient(rows', id)
    {
      OnwardPatient(rows, rows', id);
    }
  }

  lemma WriteOnward(st: Store, w: Write)
    requires WriteOk(st, w) && Applicable(st, w)
    ensures Onward(st.rows, Apply(st, w).rows)
  {
    ApplyRows(st, w);
  }

  lemma NextOnward(s: Sys, l: Label)
    requires Inv(s)
    ensures Onward(s.store.rows, Next(s, l).store.rows)
  {
    NextByWrite(s, l);
    if Next(s, l).store != s.store {
      var w :| WriteOk(s.store, w) && Applicable(s.store, w) && Admits(s.store, w)
        && Next(s, l).store == Apply(s.store, w);
      WriteOnward(s.store, w);
    }
  }

  lemma DeferredPatient(st: Store, id: nat, o: Oracle)
    requires RowsOk(st.rows) && id < |st.rows| && st.rows[id].state.status == PENDING_REFERENCE
    ensures PcPatient(st.rows, Resolve(id), Advance(st, Resolve(id), FindReference(st.rows[id].core, Some(id)), o))
  {
    var c := st.rows[id].core;
    var found := FindExternal(st.rows, c.req.provider, c.req.reference, o.pick);
    assert RowOk(st.rows, st.rows[id]);
    assert Matches(st.rows[found.value], c.req.provider, c.req.reference);
  }

  lemma DirectPatient(rows: seq<Row>, call: Call, c: Core, found: Option<nat>)
    requires found.Some? ==> found.value < |rows|
    ensures PcPatient(rows, call, OnReferenceDirect(c, found, rows))
  {
  }

  lemma DispatchPatient(rows: seq<Row>, req: Request, key: string)
    ensures PcPatient(rows, Process(req, key), Dispatch(req, key))
  {
  }

  lemma AdvancePatient(st: Store, call: Call, pc: Pc, o: Oracle)
    requires RowsOk(st.rows) && PcOk(st, call, pc) && PcPatient(st.rows, call, pc) && !pc.Commit?
    ensures PcPatient(st.rows, call, Advance(st, call, pc, o))
  {
    if pc.FindReference? && pc.parked.Some? {
      DeferredPatient(st, pc.parked.value, o);
    } else if pc.FindReference? {
      DirectPatient(st.rows, call, pc.core, FindExternal(st.rows, pc.core.req.provider, pc.core.req.reference, o.pick));
    } else if pc.CheckExternal? {
      DispatchPatient(st.rows, call.req, call.key);
    } else if pc.CheckReversed? {
      CheckedPatient(st.rows, call, pc, !o.blind && HasSuccessfulReversal(st.rows, pc.ref));
    } else {
      OtherPatient(st, call, pc, o);
    }
  }

  lemma CheckedPatient(rows: seq<Row>, call: Call, pc: Pc, taken: bool)
    requires pc.CheckReversed? && PcPatient(rows, call, pc)
    ensures PcPatient(rows, call, OnReversedChecked(pc.core, pc.parked, pc.ref, pc.refRow, taken))
  {
  }

  lemma OtherPatient(st: Store, call: Call, pc: Pc, o: Oracle)
    requires PcOk(st, call, pc) && PcPatient(st.rows, call, pc)
    requires !pc.FindReference? && !pc.CheckExternal? && !pc.CheckReversed? && !pc.Commit?
    ensures PcPatient(st.rows, call, Advance(st, call, pc, o))
  {
  }

  lemma CommitPatient(rows: seq<Row>, st: Store, call: Call, w: Write, after: After)
    requires PcPatient(st.rows, call, Commit(w, after)) && PcOk(st, call, Commit(w, after))
    ensures PcPatient(rows, call, Committed(st, w, after)) && PcPatient(rows, call, Violated(w, after))
  {
  }

  lemma OwnStepPatient(s: Sys, a: nat, o: Oracle)
    requires RowsOk(s.store.rows) && ActorsOk(s) && AllPatient(s) && a in s.actors
    ensures PcPatient(ActorStep(s, a, o).store.rows, s.actors[a].call, ActorStep(s, a, o).actors[a].pc)
  {
    var actor := s.actors[a];
    assert PcOk(s.store, actor.call, actor.pc) && PcPatient(s.store.rows, actor.call, actor.pc);
    if actor.pc.Commit? {
      CommitPatient(ActorStep(s, a, o).store.rows, s.store, actor.call, actor.pc.write, actor.pc.after);
    } else {
      AdvancePatient(s.store, actor.call, actor.pc, o);
    }
  }

  /** The actors after a step: the old ones where they were, but for the one that moved or arrived. */
  ghost predicate MovedOnly(s: Sys, l: Label, b: nat) {
    var s' := Next(s, l);
    b in s'.actors &&
    (|| (b in s.actors && s'.actors[b] == s.actors[b])
     || (exists call :: l == Arrive(b, call) && s'.actors[b] == Actor(call, EntryPoint(call)))
     || (b in s.actors && l.Step? && l.a == b && !Blocked(s, b) && s' == ActorStep(s, b, l.oracle)))
  }

  lemma ActorsMove(s: Sys, l: Label, b: nat)
    requires b in Next(s, l).actors
    ensures MovedOnly(s, l, b)
  {
  }

  lemma NextPatientPc(s: Sys, l: Label, b: nat)
    requires RowsOk(s.store.rows) && ActorsOk(s) && AllPatient(s) && b in Next(s, l).actors
    requires Onward(s.store.rows, Next(s, l).store.rows)
    ensures PcPatient(Next(s, l).store.rows, Next(s, l).actors[b].call, Next(s, l).actors[b].pc)
  {
    ActorsMove(s, l, b);
    if b in s.actors {
      OnwardPc(s.store.rows, Next(s, l).store.rows, s.actors[b].call, s.actors[b].pc);
      if l.Step? && l.a == b && !Blocked(s, b) { OwnStepPatient(s, b, l.oracle); }
    }
  }

  lemma NextPatient(s: Sys, l: Label)
    requires Inv(s) && AllPatient(s)
    ensures AllPatient(Next(s, l))
  {
    NextOnward(s, l);
    forall b | b in Next(s, l).actors
      ensures PcPatient(Next(s, l).store.rows, Next(s, l).actors[b].call, Next(s, l).actors[b].pc)
    {
      NextPatientPc(s, l, b);
    }
  }

  lemma {:induction false} ReachablePatient(labels: seq<Label>)
    ensures AllPatient(Exec(INIT, labels))
  {
    if labels != [] {
      var front := labels[..|labels| - 1];
      ReachablePatient(front);
      ReachableInv(front);
      NextPatient(Exec(INIT, front), labels[|labels| - 1]);
    }
  }

  /**
   In every interleaving, a parked row leaves PENDING_REFERENCE only if a row that it refers to has reached its end, or
   ten attempts have been counted.
   */
  lemma {:induction false} SettledForAReason(labels: seq<Label>, l: Label, i: nat)
    requires i < |Exec(INIT, labels).store.rows|
    ensures var rows := Exec(INIT, labels).store.rows;
            var rows' := Exec(INIT, labels + [l]).store.rows;
            rows[i].state.status == PENDING_REFERENCE ==>
              && i < |rows'|
              && (rows'[i].state.status != PENDING_REFERENCE ==>
                    ReferenceEnded(rows, i) || rows[i].state.attempts >= 10)
  {
    assert (labels + [l])[..|labels|] == labels;
    ReachableInv(labels);
    ReachablePatient(labels);
    NextOnward(Exec(INIT, labels), l);
    if Exec(INIT, labels).store.rows[i].state.status == PENDING_REFERENCE {
      LeavingIsPatient(Exec(INIT, labels), l, i);
    }
  }

  lemma LeavingIsPatient(s: Sys, l: Label, i: nat)
    requires RowsOk(s.store.rows) && AllPatient(s)
    requires i < |s.store.rows| && s.store.rows[i].state.status == PENDING_REFERENCE && i < |Next(s, l).store.rows|
    ensures Next(s, l).store.rows[i].state.status != PENDING_REFERENCE ==> Patient(s.store.rows, i)
  {
    match l {
      case Step(a, o) => if a in s.actors && s.actors[a].pc.Commit? { CommitLeaves(s, a, o, i); }
      case ForeignSettle(id, status) => ForeignLeavesParked(s, id, status, i);
      case _ =>
    }
  }

  lemma CommitLeaves(s: Sys, a: nat, o: Oracle, i: nat)
    requires AllPatient(s) && a in s.actors && s.actors[a].pc.Commit?
    requires i < |s.store.rows| && s.store.rows[i].state.status == PENDING_REFERENCE
    ensures i < |ActorStep(s, a, o).store.rows|
    ensures ActorStep(s, a, o).store.rows[i].state.status != PENDING_REFERENCE ==> Patient(s.store.rows, i)
  {
    var w := s.actors[a].pc.write;
    assert PcPatient(s.store.rows, s.actors[a].call, s.actors[a].pc);
    if Applicable(s.store, w) { ApplyRows(s.store, w); }
  }

  lemma ForeignLeavesParked(s: Sys, id: nat, status: Status, i: nat)
    requires RowsOk(s.store.rows) && i < |s.store.rows| && s.store.rows[i].state.status == PENDING_REFERENCE
    ensures i < |Next(s, ForeignSettle(id, status)).store.rows|
    ensures Next(s, ForeignSettle(id, status)).store.rows[i] == s.store.rows[i]
  {
    if id < |s.store.rows| && ForeignWrite(s.store, id, status).Some? {
      ForeignWriteOk(s.store, id, status);
      WriteOkApplicable(s.store, ForeignWrite(s.store, id, status).value);
      ApplyRows(s.store, ForeignWrite(s.store, id, status).value);
    }
  }

  // ---------------------------------------------------------------- a WIN refers to a BET

  /** Two transactions of the same provider, player, wallet, round and currency. */
  predicate SameParties(c: Core, ref: Core) {
    && c.req.provider == ref.req.provider && c.req.player == ref.req.player && c.req.wallet == ref.req.wallet
    && c.req.round == ref.req.round && c.amount.currency == ref.amount.currency
  }

  /** The WIN names no reference, or a BET of the same provider, player, wallet, round and currency. */
  ghost predicate WinReferred(rows: seq<Row>, c: Core) {
    c.req.reference == "" ||
    exists r :: 0 <= r < |rows| && Matches(rows[r], c.req.provider, c.req.reference)
                && rows[r].core.kind == BET && SameParties(c, rows[r].core)
  }

  /** The WIN was processed by the service, which records a balance with it. */
  predicate ServedWin(row: Row) {
    row.core.kind == WIN && row.state.status == PROCESSED && row.core.result.Some?
  }

  ghost predicate PcWin(rows: seq<Row>, pc: Pc) {
    match pc
    case LockWallet(job) => job.core.kind == WIN ==> WinReferred(rows, job.core)
    case Update(job, _, _) => job.core.kind == WIN ==> WinReferred(rows, job.core)
    case Commit(Insert(row, _), _) => ServedWin(row) ==> WinReferred(rows, row.core)
    case _ => true
  }

  ghost predicate AllWins(s: Sys) {
    && (forall i :: 0 <= i < |s.store.rows| && ServedWin(s.store.rows[i]) ==>
          WinReferred(s.store.rows, s.store.rows[i].core))
    && (forall a :: a in s.actors ==> PcWin(s.store.rows, s.actors[a].pc))
  }

  lemma GrowthWin(rows: seq<Row>, rows': seq<Row>, c: Core)
    requires Grows(rows, rows') && WinReferred(rows, c)
    ensures WinReferred(rows', c)
  {
    if c.req.reference != "" {
      var r :| 0 <= r < |rows| && Matches(rows[r], c.req.provider, c.req.reference)
        && rows[r].core.kind == BET && SameParties(c, rows[r].core);
      assert Matches(rows'[r], c.req.provider, c.req.reference);
    }
  }

  lemma GrowthWinPc(rows: seq<Row>, rows': seq<Row>, pc: Pc)
    requires Grows(rows, rows') && PcWin(rows, pc)
    ensures PcWin(rows', pc)
  {
    forall c | WinReferred(rows, c)
      ensures WinReferred(rows', c)
    {
      GrowthWin(rows, rows', c);
    }
  }

  lemma ReferenceWin(st: Store, c: Core, found: Option<nat>)
    requires found.Some? ==> found.value < |st.rows|
    requires found.Some? ==> HasExternal(st.rows[found.value].core, c.req.provider, c.req.reference)
    ensures PcWin(st.rows, OnReferenceDirect(c, found, st.rows))
  {
    if found.Some? && c.kind == WIN && ValidateWin(c, st.rows[found.value].core).None? {
      assert Matches(st.rows[found.value], c.req.provider, c.req.reference);
      assert SameParties(c, st.rows[found.value].core);
    }
  }

  lemma DispatchWin(rows: seq<Row>, req: Request, key: string)
    ensures PcWin(rows, Dispatch(req, key))
  {
  }

  lemma AdvanceWin(st: Store, call: Call, pc: Pc, o: Oracle)
    requires PcOk(st, call, pc) && PcWin(st.rows, pc) && !pc.Commit?
    ensures PcWin(st.rows, Advance(st, call, pc, o))
  {
    if pc.FindReference? && pc.parked.None? {
      ReferenceWin(st, pc.core, FindExternal(st.rows, pc.core.req.provider, pc.core.req.reference, o.pick));
    } else if pc.CheckExternal? {
      DispatchWin(st.rows, call.req, call.key);
    } else if pc.Update? {
      UpdateWin(st, call, pc, o);
    } else {
      OtherWin(st, call, pc, o);
    }
  }

  lemma UpdateWin(st: Store, call: Call, pc: Pc, o: Oracle)
    requires pc.Update? && PcWin(st.rows, pc)
    ensures PcWin(st.rows, Advance(st, call, pc, o))
  {
    if pc.job.core.kind == WIN {
      GrowthWin(st.rows, st.rows, pc.job.core);
      assert WinReferred(st.rows, pc.job.core.(result := Some(pc.change.after)));
    }
  }

  lemma OtherWin(st: Store, call: Call, pc: Pc, o: Oracle)
    requires PcOk(st, call, pc) && PcWin(st.rows, pc)
    requires !pc.CheckExternal? && !pc.Update? && !pc.Commit? && (pc.FindReference? ==> pc.parked.Some?)
    ensures PcWin(st.rows, Advance(st, call, pc, o))
  {
  }

  lemma CommitWin(rows: seq<Row>, st: Store, w: Write, after: After)
    ensures PcWin(rows, Committed(st, w, after)) && PcWin(rows, Violated(w, after))
  {
  }

  lemma WriteWin(st: Store, w: Write, i: nat)
    requires WriteOk(st, w) && Applicable(st, w) && i < |Apply(st, w).rows|
    requires forall q :: 0 <= q < |st.rows| && ServedWin(st.rows[q]) ==> WinReferred(st.rows, st.rows[q].core)
    requires w.Insert? && ServedWin(w.row) ==> WinReferred(st.rows, w.row.core)
    ensures ServedWin(Apply(st, w).rows[i]) ==> WinReferred(Apply(st, w).rows, Apply(st, w).rows[i].core)
  {
    ApplyRows(st, w);
    var rows' := Apply(st, w).rows;
    if ServedWin(rows'[i]) {
      if i < |st.rows| {
        assert ServedWin(st.rows[i]);
        GrowthWin(st.rows, rows', st.rows[i].core);
      } else if w.Insert? {
        GrowthWin(st.rows, rows', w.row.core);
      }
    }
  }

  lemma OwnStepWin(s: Sys, a: nat, o: Oracle)
    requires ActorsOk(s) && AllWins(s) && a in s.actors
    ensures PcWin(ActorStep(s, a, o).store.rows, ActorStep(s, a, o).actors[a].pc)
  {
    var actor := s.actors[a];
    assert PcOk(s.store, actor.call, actor.pc) && PcWin(s.store.rows, actor.pc);
    if actor.pc.Commit? {
      CommitWin(ActorStep(s, a, o).store.rows, s.store, actor.pc.write, actor.pc.after);
    } else {
      AdvanceWin(s.store, actor.call, actor.pc, o);
    }
  }

  lemma NextWinPc(s: Sys, l: Label, b: nat)
    requires ActorsOk(s) && AllWins(s) && b in Next(s, l).actors && Grows(s.store.rows, Next(s, l).store.rows)
    ensures PcWin(Next(s, l).store.rows, Next(s, l).actors[b].pc)
  {
    ActorsMove(s, l, b);
    if b in s.actors {
      GrowthWinPc(s.store.rows, Next(s, l).store.rows, s.actors[b].pc);
      if l.Step? && l.a == b && !Blocked(s, b) { OwnStepWin(s, b, l.oracle); }
    }
  }

  lemma StepWinRow(s: Sys, a: nat, o: Oracle, i: nat)
    requires ActorsOk(s) && AllWins(s) && a in s.actors && i < |ActorStep(s, a, o).store.rows|
    ensures var rows := ActorStep(s, a, o).store.rows; ServedWin(rows[i]) ==> WinReferred(rows, rows[i].core)
  {
    var pc := s.actors[a].pc;
    assert PcOk(s.store, s.actors[a].call, pc) && PcWin(s.store.rows, pc);
    if pc.Commit? && Applicable(s.store, pc.write) && Admits(s.store, pc.write) {
      WriteWin(s.store, pc.write, i);
    }
  }

  lemma ForeignWinRow(s: Sys, w: Write, i: nat)
    requires AllWins(s) && WriteOk(s.store, w) && i < |ForeignStep(s, w).store.rows|
    requires w.Insert? ==> !ServedWin(w.row)
    ensures var rows := ForeignStep(s, w).store.rows; ServedWin(rows[i]) ==> WinReferred(rows, rows[i].core)
  {
    if Applicable(s.store, w) && Admits(s.store, w) { WriteWin(s.store, w, i); }
  }

  lemma NextWinRow(s: Sys, l: Label, i: nat)
    requires RowsOk(s.store.rows) && ActorsOk(s) && AllWins(s) && i < |Next(s, l).store.rows|
    ensures var rows := Next(s, l).store.rows; ServedWin(rows[i]) ==> WinReferred(rows, rows[i].core)
  {
    match l {
      case Step(a, o) => if a in s.actors && !Blocked(s, a) { StepWinRow(s, a, o, i); }
      case ForeignPending(core) =>
        if CoreOk(core) && core.result.None? {
          ForeignWinRow(s, Insert(RowOf(core, PENDING, NO_FAILURE, None), None), i);
        }
      case ForeignSettle(id, status) =>
        if id < |s.store.rows| && ForeignWrite(s.store, id, status).Some? {
          ForeignWriteOk(s.store, id, status);
          if Next(s, l) != s { ForeignWinRow(s, ForeignWrite(s.store, id, status).value, i); }
        }
      case _ =>
    }
  }

  lemma NextWins(s: Sys, l: Label)
    requires Inv(s) && AllWins(s)
    ensures AllWins(Next(s, l))
  {
    NextEvolves(s, l);
    forall i | 0 <= i < |Next(s, l).store.rows| && ServedWin(Next(s, l).store.rows[i])
      ensures WinReferred(Next(s, l).store.rows, Next(s, l).store.rows[i].core)
    {
      NextWinRow(s, l, i);
    }
    forall b | b in Next(s, l).actors
      ensures PcWin(Next(s, l).store.rows, Next(s, l).actors[b].pc)
    {
      NextWinPc(s, l, b);
    }
  }

  /** In every interleaving, a WIN that the service processed names no reference or a BET that it agrees with. */
  lemma {:induction false} WinsReferToBets(labels: seq<Label>)
    ensures AllWins(Exec(INIT, labels))
    ensures var rows := Exec(INIT, labels).store.rows;
            forall i :: 0 <= i < |rows| && ServedWin(rows[i]) ==> WinReferred(rows, rows[i].core)
  {
    if labels != [] {
      var front := labels[..|labels| - 1];
      WinsReferToBets(front);
      ReachableInv(front);
      NextWins(Exec(INIT, front), labels[|labels| - 1]);
    }
  }

  // ---------------------------------------------------------------- references agree column by column

  /**
   With unique external identifiers every PROCESSED REFUND or ROLLBACK agrees with its reference in provider, player,
   wallet, round and currency, and so does every parked row with the row that it refers to.
   */
  lemma {:induction false} ReferencesAgree(labels: seq<Label>, i: nat, r: nat)
    requires UniqueExternal(Exec(INIT, labels).store.rows)
    requires i < |Exec(INIT, labels).store.rows| && r < |Exec(INIT, labels).store.rows|
    ensures var rows := Exec(INIT, labels).store.rows;
            || (rows[i].core.kind in {REFUND, ROLLBACK} && rows[i].state.status == PROCESSED
                && rows[i].state.ref == Some(r))
            || (rows[i].state.status == PENDING_REFERENCE
                && Matches(rows[r], rows[i].core.req.provider, rows[i].core.req.reference)) ==>
              SameParties(rows[i].core, rows[r].core)
  {
    ReachableInv(labels);
    ReachableU(labels);
    var rows := Exec(INIT, labels).store.rows;
    assert RowU(rows, i) && RowOk(rows, rows[i]);
    if rows[i].state.status == PENDING_REFERENCE
       && Matches(rows[r], rows[i].core.req.provider, rows[i].core.req.reference) {
      assert HasExternal(rows[r].core, rows[i].core.req.provider, rows[i].core.req.reference);
    }
  }

  // ---------------------------------------------------------------- wallets

  /** No two wallets have the same player, provider and currency. */
  ghost predicate OwnersDiffer(wallets: map<string, WalletRow>) {
    forall x, y | x in wallets && y in wallets && wallets[x].player == wallets[y].player
      && wallets[x].provider == wallets[y].provider
      && wallets[x].balance.currency == wallets[y].balance.currency :: x == y
  }

  lemma WriteKeepsOwners(st: Store, w: Write)
    requires WalletsOk(st.wallets) && OwnersDiffer(st.wallets) && WriteOk(st, w) && Applicable(st, w) && Admits(st, w)
    ensures OwnersDiffer(Apply(st, w).wallets)
  {
    if MoveOf(w).Some? {
      MoveFacts(st, w);
      MoveEntryMath(st.wallets[MoveOf(w).value.wallet], 0, MoveOf(w).value);
    }
  }

  lemma {:induction false} OneWalletEach(labels: seq<Label>)
    ensures OwnersDiffer(Exec(INIT, labels).store.wallets)
  {
    if labels != [] {
      var front, l := labels[..|labels| - 1], labels[|labels| - 1];
      var s := Exec(INIT, front);
      OneWalletEach(front);
      ReachableInv(front);
      NextByWrite(s, l);
      if Next(s, l).store != s.store {
        var w :| WriteOk(s.store, w) && Applicable(s.store, w) && Admits(s.store, w)
          && Next(s, l).store == Apply(s.store, w);
        WriteKeepsOwners(s.store, w);
      }
    }
  }

  // ---------------------------------------------------------------- calls that come too late

  /** The wallet's identifier or owner is taken. */
  ghost predicate OwnerKnown(st: Store, id: string, player: string, provider: string, initial: Money) {
    || id in st.wallets
    || exists x :: x in st.wallets && st.wallets[x].player == player && st.wallets[x].provider == provider
                   && st.wallets[x].balance.currency == initial.currency
  }

  /** Whoever is about to open a wallet that exists meanwhile is refused as a duplicate, and nothing changes. */
  lemma {:induction false} LateOpening(labels: seq<Label>, a: nat, o: Oracle)
    requires a in Exec(INIT, labels).actors
    requires Exec(INIT, labels).actors[a].pc.Commit? && Exec(INIT, labels).actors[a].pc.write.Open?
    ensures var s := Exec(INIT, labels);
            var w, s' := s.actors[a].pc.write, Next(s, Step(a, o));
            OwnerKnown(s.store, w.wallet, w.player, w.provider, w.initial) ==>
              s'.store == s.store && a in s'.actors && s'.actors[a].pc == Done(WalletRefusal(DuplicateWallet))
  {
    ReachableInv(labels);
    OpeningRefused(Exec(INIT, labels), a, o);
  }

  lemma OpeningRefused(s: Sys, a: nat, o: Oracle)
    requires ActorsOk(s) && a in s.actors && s.actors[a].pc.Commit? && s.actors[a].pc.write.Open?
    ensures var w, s' := s.actors[a].pc.write, Next(s, Step(a, o));
            OwnerKnown(s.store, w.wallet, w.player, w.provider, w.initial) ==>
              s'.store == s.store && a in s'.actors && s'.actors[a].pc == Done(WalletRefusal(DuplicateWallet))
  {
    assert PcOk(s.store, s.actors[a].call, s.actors[a].pc);
    assert !Blocked(s, a);
  }

  /** Whoever claims a row that was settled meanwhile changes nothing and answers with the status that it had read. */
  lemma {:induction false} LateClaim(labels: seq<Label>, a: nat, o: Oracle)
    requires a in Exec(INIT, labels).actors
    requires Exec(INIT, labels).actors[a].pc.Claim? && !Blocked(Exec(INIT, labels), a)
    ensures var s, s' := Exec(INIT, labels), Next(Exec(INIT, labels), Step(a, o));
            && s.actors[a].call.Resolve? && s.actors[a].call.id < |s.store.rows|
            && s'.store == s.store && a in s'.actors
            && (s.store.rows[s.actors[a].call.id].state.status != PENDING_REFERENCE ==>
                  s'.actors[a].pc == Done(Answer(s.actors[a].call.id, PENDING_REFERENCE, None, false)))
  {
    ReachableInv(labels);
    var s := Exec(INIT, labels);
    assert PcOk(s.store, s.actors[a].call, s.actors[a].pc);
  }
}
