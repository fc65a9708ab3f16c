/** Resolution of a parked row comes to an end. */
module Termination {
  import opened Results
  import opened WalletAggregate
  import opened Transactions
  import opened Tables
  import opened Machine
  import opened Invariants
  import opened StoreProofs
  import opened SystemProofs
  import opened Runs
  import opened ExternalIds
  import opened Exclusive
  import opened ExclusiveProofs

  // ---------------------------------------------------------------- one call takes finitely many steps

  /** An upper bound on the steps that a call still takes. */
  function Rank(pc: Pc): nat {
    match pc
    case Done(_) => 0
    case ReplayBalance(_, _) => 1
    case ReportBalance(_, _, _, _) => 1
    case FindDuplicate => 2
    case Commit(_, after) => if after.RejectNext? then 4 else 3
    case ReadRejected(_, _, _) => 4
    case ReadLoss(_) => 4
    case FindWallet => 4
    case Update(_, _, _) => 5
    case LockWallet(_) => 6
    case CheckReversed(_, _, _, _) => 7
    case FindReference(_, _) => 8
    case CheckExternal => 9
    case Claim(_) => 9
    case FindByKey => 10
    case FindParked => 10
  }

  lemma DispatchRank(req: Request, key: string)
    ensures Rank(Dispatch(req, key)) <= 8
  {
  }

  lemma ReferenceRank(core: Core, parked: Option<nat>, found: Option<nat>, rows: seq<Row>)
    requires found.Some? ==> found.value < |rows|
    ensures Rank(if parked.None? then OnReferenceDirect(core, found, rows)
                 else OnReferenceDeferred(core, parked.value, found, rows)) <= 7
  {
  }

  /** The kind of call that a program point belongs to. */
  predicate Fits(call: Call, pc: Pc) {
    match pc
    case FindByKey => call.Process?
    case CheckExternal => call.Process?
    case FindDuplicate => call.Process?
    case FindParked => call.Resolve?
    case Claim(_) => call.Resolve?
    case FindWallet => call.Create?
    case _ => true
  }

  lemma WalletStepRank(st: Store, call: Call, pc: Pc, o: Oracle)
    requires pc.LockWallet? || pc.Update? || pc.CheckReversed?
    ensures Rank(Advance(st, call, pc, o)) < Rank(pc)
  {
  }

  /** The step only leads to the generation of another wallet identifier. */
  predicate Regenerates(st: Store, call: Call, pc: Pc, o: Oracle) {
    pc.FindWallet? && Advance(st, call, pc, o).FindWallet?
  }

  /** That happens only if the generated one is blank or taken. */
  lemma RegeneratedTaken(st: Store, call: Call, pc: Pc, o: Oracle)
    requires Fits(call, pc) && Regenerates(st, call, pc, o)
    ensures Blank(o.walletId) || o.walletId in st.wallets
  {
  }

  lemma AdvanceRank(st: Store, call: Call, pc: Pc, o: Oracle)
    requires Fits(call, pc) && !pc.Commit? && !pc.Done? && !Regenerates(st, call, pc, o)
    ensures Rank(Advance(st, call, pc, o)) < Rank(pc)
  {
    if pc.CheckExternal? {
      DispatchRank(call.req, call.key);
    } else if pc.FindReference? {
      var found := FindExternal(st.rows, pc.core.req.provider, pc.core.req.reference, o.pick);
      ReferenceRank(pc.core, pc.parked, found, st.rows);
    } else if pc.LockWallet? || pc.Update? || pc.CheckReversed? {
      WalletStepRank(st, call, pc, o);
    }
  }

  lemma CommitRank(st: Store, call: Call, w: Write, after: After)
    requires PcOk(st, call, Commit(w, after))
    ensures Rank(Committed(st, w, after)) < Rank(Commit(w, after)) && Rank(Violated(w, after)) < Rank(Commit(w, after))
  {
  }

  lemma PointsFit(st: Store, call: Call, pc: Pc)
    requires PcOk(st, call, pc)
    ensures Fits(call, pc)
  {
  }

  /** The label is a step of instance a that is enabled and does not just generate another wallet identifier. */
  ghost predicate OwnStep(s: Sys, l: Label, a: nat) {
    && l.Step? && l.a == a && a in s.actors && !Blocked(s, a)
    && !s.actors[a].pc.Done? && !Regenerates(s.store, s.actors[a].call, s.actors[a].pc, l.oracle)
  }

  lemma OwnStepRank(s: Sys, l: Label, a: nat)
    requires ActorsOk(s) && OwnStep(s, l, a)
    ensures a in Next(s, l).actors && Rank(Next(s, l).actors[a].pc) < Rank(s.actors[a].pc)
  {
    var call, pc := s.actors[a].call, s.actors[a].pc;
    assert PcOk(s.store, call, pc);
    if pc.Commit? {
      CommitRank(s.store, call, pc.write, pc.after);
    } else {
      PointsFit(s.store, call, pc);
      AdvanceRank(s.store, call, pc, l.oracle);
    }
  }

  lemma OtherStepRank(s: Sys, l: Label, a: nat)
    requires a in s.actors && !OwnStep(s, l, a) && l != Crash(a)
    ensures a in Next(s, l).actors && Next(s, l).actors[a] == s.actors[a]
  {
    if l.Step? && l.a == a && !Blocked(s, a) {
      assert Advance(s.store, s.actors[a].call, s.actors[a].pc, l.oracle) == s.actors[a].pc;
      assert !s.actors[a].pc.Commit?;
    }
  }

  /**
   Every enabled step of an unfinished call, commits included, brings it nearer to its end, unless the identifier
   generated for a new wallet is blank or taken.
   */
  lemma {:induction false} StepsBounded(labels: seq<Label>, a: nat, o: Oracle)
    ensures var s := Exec(INIT, labels);
            var s' := Next(s, Step(a, o));
            a in s.actors && !Blocked(s, a) && !s.actors[a].pc.Done? ==>
              && a in s'.actors
              && (|| Rank(s'.actors[a].pc) < Rank(s.actors[a].pc)
                  || (s.actors[a].pc.FindWallet? && (Blank(o.walletId) || o.walletId in s.store.wallets)))
  {
    ReachableInv(labels);
    var s := Exec(INIT, labels);
    if OwnStep(s, Step(a, o), a) {
      OwnStepRank(s, Step(a, o), a);
    } else if a in s.actors && !Blocked(s, a) && !s.actors[a].pc.Done? {
      assert PcOk(s.store, s.actors[a].call, s.actors[a].pc);
      PointsFit(s.store, s.actors[a].call, s.actors[a].pc);
      RegeneratedTaken(s.store, s.actors[a].call, s.actors[a].pc, o);
      OtherStepRank(s, Step(a, o), a);
    }
  }

  ghost function OwnSteps(s: Sys, labels: seq<Label>, a: nat): nat {
    if labels == [] then 0
    else
      var front := labels[..|labels| - 1];
      OwnSteps(s, front, a) + if OwnStep(Exec(s, front), labels[|labels| - 1], a) then 1 else 0
  }

  lemma {:induction false} OwnStepsBounded(s: Sys, labels: seq<Label>, a: nat)
    requires Inv(s) && a in s.actors && Crash(a) !in labels
    ensures a in Exec(s, labels).actors
    ensures OwnSteps(s, labels, a) + Rank(Exec(s, labels).actors[a].pc) <= Rank(s.actors[a].pc)
  {
    if labels != [] {
      var front, l := labels[..|labels| - 1], labels[|labels| - 1];
      OwnStepsBounded(s, front, a);
      ExecKeepsInv(s, front);
      if OwnStep(Exec(s, front), l, a) {
        OwnStepRank(Exec(s, front), l, a);
      } else {
        OtherStepRank(Exec(s, front), l, a);
      }
    }
  }

  /** However its steps interleave with those of others, a call takes at most ten steps of its own. */
  lemma {:induction false} CallsTakeTenSteps(labels: seq<Label>, call: Call, later: seq<Label>, a: nat)
    requires a !in Exec(INIT, labels).actors && (call.Process? ==> call.key != "") && Crash(a) !in later
    ensures OwnSteps(Next(Exec(INIT, labels), Arrive(a, call)), later, a) <= 10
  {
    ReachableInv(labels);
    ArrivalBounded(Exec(INIT, labels), call, later, a);
  }

  lemma {:induction false} ArrivalBounded(s: Sys, call: Call, later: seq<Label>, a: nat)
    requires Inv(s) && a !in s.actors && (call.Process? ==> call.key != "") && Crash(a) !in later
    ensures OwnSteps(Next(s, Arrive(a, call)), later, a) <= 10
  {
    NextKeepsInv(s, Arrive(a, call));
    assert Next(s, Arrive(a, call)).actors[a].pc == EntryPoint(call);
    assert Rank(EntryPoint(call)) <= 10;
    OwnStepsBounded(Next(s, Arrive(a, call)), later, a);
  }

  // ---------------------------------------------------------------- the retry budget

  /** No query for an earlier reversal fails in the run. */
  ghost predicate Sighted(labels: seq<Label>) {
    forall k :: 0 <= k < |labels| && labels[k].Step? ==> !labels[k].oracle.blind
  }

  /** Finished calls that left a row waiting are counted by its ref_attempts column. */
  ghost predicate WaitsCounted(s: Sys) {
    forall id: nat :: s.waits[id] == if id < |s.store.rows| then s.store.rows[id].state.attempts else 0
  }

  /** Row `ref` is one that the parked row `id` refers to, and it has been reversed by some row. */
  ghost predicate PairReversed(rows: seq<Row>, id: nat, ref: nat) {
    && id < |rows| && ref < |rows|
    && HasExternal(rows[ref].core, rows[id].core.req.provider, rows[id].core.req.reference)
    && HasSuccessfulReversal(rows, ref)
  }

  /** The instance resolves row `id` and has passed the check for an earlier reversal of row `ref`. */
  predicate PassedCheck(pc: Pc, id: nat, ref: nat) {
    match pc
    case LockWallet(job) => job.parked == Some(id) && job.ref == Some(ref)
    case Update(job, _, _) => job.parked == Some(id) && job.ref == Some(ref)
    case Commit(Settle(i, PROCESSED, _, r, _), _) => i == id && r == Some(ref)
    case _ => false
  }

  ghost predicate ConflictOk(s: Sys, id: nat, ref: nat) {
    && s.conflicts[(id, ref)] <= 1
    && (s.conflicts[(id, ref)] == 1 ==>
          PairReversed(s.store.rows, id, ref) && forall a :: a in s.actors ==> !PassedCheck(s.actors[a].pc, id, ref))
  }

  ghost predicate ConflictsOk(s: Sys) {
    forall id: nat, ref: nat :: ConflictOk(s, id, ref)
  }

  lemma WriteCountsWait(st: Store, w: Write, waits: multiset<nat>)
    requires Applicable(st, w) && WriteOk(st, w)
    requires forall id: nat :: waits[id] == if id < |st.rows| then st.rows[id].state.attempts else 0
    ensures var waits' := if w.Wait? then waits + multiset{w.id} else waits;
            var rows' := Apply(st, w).rows;
            forall id: nat :: waits'[id] == if id < |rows'| then rows'[id].state.attempts else 0
  {
    ApplyRows(st, w);
    if w.Insert? && w.move.Some? {
      assert MoveInsertOk(st, w.row, w.move.value);
    }
  }

  lemma StepKeepsWaits(s: Sys, a: nat, o: Oracle)
    requires ActorsOk(s) && WaitsCounted(s) && a in s.actors
    ensures WaitsCounted(ActorStep(s, a, o))
  {
    if s.actors[a].pc.Commit? {
      var w := s.actors[a].pc.write;
      assert PcOk(s.store, s.actors[a].call, s.actors[a].pc);
      if Applicable(s.store, w) { WriteCountsWait(s.store, w, s.waits); }
    }
  }

  lemma ForeignKeepsWaits(s: Sys, w: Write)
    requires WaitsCounted(s) && WriteOk(s.store, w) && !w.Wait? && (w.Insert? ==> w.row.state.attempts == 0)
    ensures WaitsCounted(ForeignStep(s, w))
  {
    WriteOkApplicable(s.store, w);
    WriteCountsWait(s.store, w, s.waits);
  }

  lemma NextKeepsWaits(s: Sys, l: Label)
    requires RowsOk(s.store.rows) && ActorsOk(s) && WaitsCounted(s)
    ensures WaitsCounted(Next(s, l))
  {
    match l {
      case Step(a, o) => if a in s.actors && !Blocked(s, a) { StepKeepsWaits(s, a, o); }
      case ForeignPending(core) =>
        if CoreOk(core) && core.result.None? {
          ForeignKeepsWaits(s, Insert(RowOf(core, PENDING, NO_FAILURE, None), None));
        }
      case ForeignSettle(id, status) =>
        if id < |s.store.rows| && ForeignWrite(s.store, id, status).Some? {
          ForeignWriteOk(s.store, id, status);
          ForeignKeepsWaits(s, ForeignWrite(s.store, id, status).value);
        }
      case _ =>
    }
  }

  /** Every write that updates a row increments nothing but the counted column. */
  lemma {:induction false} WaitsAreAttempts(labels: seq<Label>)
    ensures WaitsCounted(Exec(INIT, labels))
  {
    if labels != [] {
      var front := labels[..|labels| - 1];
      WaitsAreAttempts(front);
      ReachableInv(front);
      NextKeepsWaits(Exec(INIT, front), labels[|labels| - 1]);
    }
  }

  // ---------------------------------------------------------------- the reversal index

  lemma ReversedStays(rows: seq<Row>, rows': seq<Row>, id: nat, ref: nat)
    requires Grows(rows, rows') && PairReversed(rows, id, ref)
    requires forall i :: 0 <= i < |rows| && Terminal(rows[i].state.status) ==> rows'[i] == rows[i]
    ensures PairReversed(rows', id, ref)
  {
    var i :| 0 <= i < |rows| && Reverses(rows[i], ref);
    assert Reverses(rows'[i], ref);
  }

  /** An instance that passes the check saw no reversal, so the pair has had no conflict. */
  lemma CheckSeesConflict(s: Sys, a: nat, o: Oracle, id: nat, ref: nat)
    requires ActorsOk(s) && ConflictOk(s, id, ref) && a in s.actors && !o.blind && !s.actors[a].pc.Commit?
    requires PassedCheck(Advance(s.store, s.actors[a].call, s.actors[a].pc, o), id, ref)
    ensures s.conflicts[(id, ref)] == 0
  {
    var pc := s.actors[a].pc;
    assert PcOk(s.store, s.actors[a].call, pc);
    if !PassedCheck(pc, id, ref) {
      OnlyCheckPasses(s.store, s.actors[a].call, pc, o, id, ref);
    }
  }

  lemma OnlyCheckPasses(st: Store, call: Call, pc: Pc, o: Oracle, id: nat, ref: nat)
    requires PcOk(st, call, pc) && !pc.Commit? && !PassedCheck(pc, id, ref) && !o.blind
    requires PassedCheck(Advance(st, call, pc, o), id, ref)
    ensures !HasSuccessfulReversal(st.rows, ref)
  {
    if pc.CheckExternal? {
      DispatchNotPassed(call.req, call.key, id, ref);
    } else if pc.FindReference? {
      var found := FindExternal(st.rows, pc.core.req.provider, pc.core.req.reference, o.pick);
      ReferenceNotPassed(pc.core, pc.parked, found, st.rows, id, ref);
    }
  }

  lemma ReferenceNotPassed(core: Core, parked: Option<nat>, found: Option<nat>, rows: seq<Row>, id: nat, ref: nat)
    requires found.Some? ==> found.value < |rows|
    ensures !PassedCheck(if parked.None? then OnReferenceDirect(core, found, rows)
                         else OnReferenceDeferred(core, parked.value, found, rows), id, ref)
  {
  }

  lemma DispatchNotPassed(req: Request, key: string, id: nat, ref: nat)
    ensures !PassedCheck(Dispatch(req, key), id, ref)
  {
  }

  lemma LocalStepKeepsConflicts(s: Sys, a: nat, o: Oracle)
    requires ActorsOk(s) && ConflictsOk(s) && a in s.actors && !o.blind && !s.actors[a].pc.Commit?
    ensures ConflictsOk(ActorStep(s, a, o))
  {
    var s' := ActorStep(s, a, o);
    forall id: nat, ref: nat
      ensures ConflictOk(s', id, ref)
    {
      assert ConflictOk(s, id, ref);
      if PassedCheck(s'.actors[a].pc, id, ref) {
        CheckSeesConflict(s, a, o, id, ref);
      }
    }
  }

  /** A resolution is stopped by a constraint only when another row has reversed its reference meanwhile. */
  lemma ConflictMeansReversed(st: Store, call: Call, w: Write, after: After)
    requires w.Settle? && PcOk(st, call, Commit(w, after)) && !(Applicable(st, w) && Admits(st, w))
    ensures w.status == PROCESSED && w.ref.Some? && PairReversed(st.rows, w.id, w.ref.value)
  {
    WriteOkApplicable(st, w);
    assert HasSuccessfulReversal(st.rows, w.ref.value);
    assert RefFits(st.rows, st.rows[w.id].core, w.ref.value);
  }

  lemma RefusedPair(s: Sys, a: nat, o: Oracle, id: nat, ref: nat)
    requires InstancesOk(s) && ConflictOk(s, id, ref) && a in s.actors && s.actors[a].pc.Commit?
    requires !(Applicable(s.store, s.actors[a].pc.write) && Admits(s.store, s.actors[a].pc.write))
    ensures ConflictOk(ActorStep(s, a, o), id, ref)
  {
    var w, after := s.actors[a].pc.write, s.actors[a].pc.after;
    assert PcOk(s.store, s.actors[a].call, s.actors[a].pc);
    assert !PassedCheck(Violated(w, after), id, ref);
    if w.Settle? && w.id == id && w.ref == Some(ref) {
      ConflictMeansReversed(s.store, s.actors[a].call, w, after);
      assert PassedCheck(s.actors[a].pc, id, ref);
      OthersNotPassed(s, a, id, ref);
    }
  }

  lemma RefusedCommitKeepsConflicts(s: Sys, a: nat, o: Oracle)
    requires InstancesOk(s) && ConflictsOk(s) && a in s.actors && s.actors[a].pc.Commit?
    requires !(Applicable(s.store, s.actors[a].pc.write) && Admits(s.store, s.actors[a].pc.write))
    ensures ConflictsOk(ActorStep(s, a, o))
  {
    forall id: nat, ref: nat
      ensures ConflictOk(ActorStep(s, a, o), id, ref)
    {
      assert ConflictOk(s, id, ref);
      RefusedPair(s, a, o, id, ref);
    }
  }

  /** The row lock keeps every other instance away from the point after the check. */
  lemma OthersNotPassed(s: Sys, a: nat, id: nat, ref: nat)
    requires InstancesOk(s) && a in s.actors && PassedCheck(s.actors[a].pc, id, ref) && s.actors[a].pc.Commit?
    ensures forall b :: b in s.actors && b != a ==> !PassedCheck(s.actors[b].pc, id, ref)
  {
    assert PcOk(s.store, s.actors[a].call, s.actors[a].pc);
    PassedHolds(s.store, s.actors[a].call, s.actors[a].pc, id, ref);
    forall b | b in s.actors && b != a
      ensures !PassedCheck(s.actors[b].pc, id, ref)
    {
      assert PcOk(s.store, s.actors[b].call, s.actors[b].pc);
      if PassedCheck(s.actors[b].pc, id, ref) {
        PassedHolds(s.store, s.actors[b].call, s.actors[b].pc, id, ref);
        assert false;
      }
    }
  }

  lemma PassedHolds(st: Store, call: Call, pc: Pc, id: nat, ref: nat)
    requires PcOk(st, call, pc) && PassedCheck(pc, id, ref)
    ensures HeldRow(pc) == Some(id)
  {
  }

  /** Finished rows stay, so what was reversed stays reversed. */
  lemma GrowthKeepsConflicts(s: Sys, s': Sys)
    requires ConflictsOk(s) && s'.conflicts == s.conflicts && Grows(s.store.rows, s'.store.rows)
    requires forall i :: 0 <= i < |s.store.rows| && Terminal(s.store.rows[i].state.status) ==>
               s'.store.rows[i] == s.store.rows[i]
    requires forall a, id: nat, ref: nat :: a in s'.actors && PassedCheck(s'.actors[a].pc, id, ref) ==>
               a in s.actors && PassedCheck(s.actors[a].pc, id, ref)
    ensures ConflictsOk(s')
  {
    forall id: nat, ref: nat
      ensures ConflictOk(s', id, ref)
    {
      assert ConflictOk(s, id, ref);
      if s.conflicts[(id, ref)] == 1 {
        ReversedStays(s.store.rows, s'.store.rows, id, ref);
      }
    }
  }

  lemma CommitKeepsConflicts(s: Sys, a: nat, o: Oracle)
    requires InstancesOk(s) && ActorsR(s) && ConflictsOk(s) && a in s.actors && s.actors[a].pc.Commit?
    ensures ConflictsOk(ActorStep(s, a, o))
  {
    var w := s.actors[a].pc.write;
    if Applicable(s.store, w) && Admits(s.store, w) {
      AdmittedCommitKeepsConflicts(s, a, o);
    } else {
      RefusedCommitKeepsConflicts(s, a, o);
    }
  }

  lemma CommittedNotPassed(st: Store, w: Write, after: After, id: nat, ref: nat)
    ensures !PassedCheck(Committed(st, w, after), id, ref)
  {
  }

  lemma AdmittedCommitKeepsConflicts(s: Sys, a: nat, o: Oracle)
    requires ActorsOk(s) && ActorsR(s) && ConflictsOk(s) && a in s.actors && s.actors[a].pc.Commit?
    requires Applicable(s.store, s.actors[a].pc.write) && Admits(s.store, s.actors[a].pc.write)
    ensures ConflictsOk(ActorStep(s, a, o))
  {
    var w, after, s' := s.actors[a].pc.write, s.actors[a].pc.after, ActorStep(s, a, o);
    assert PcOk(s.store, s.actors[a].call, s.actors[a].pc) && PcR(s.store.rows, s.actors[a].call, s.actors[a].pc);
    ApplyRows(s.store, w);
    TerminalFixed(s.store, w);
    forall b, id: nat, ref: nat | b in s'.actors && PassedCheck(s'.actors[b].pc, id, ref)
      ensures b in s.actors && PassedCheck(s.actors[b].pc, id, ref)
    {
      CommittedNotPassed(s.store, w, after, id, ref);
    }
    GrowthKeepsConflicts(s, s');
  }

  lemma ForeignKeepsConflicts(s: Sys, w: Write)
    requires ConflictsOk(s) && WriteOk(s.store, w) && WriteR(s.store.rows, w)
    ensures ConflictsOk(ForeignStep(s, w))
  {
    if Applicable(s.store, w) {
      ApplyRows(s.store, w);
      TerminalFixed(s.store, w);
      GrowthKeepsConflicts(s, ForeignStep(s, w));
    }
  }

  lemma NextKeepsConflicts(s: Sys, l: Label)
    requires RowsOk(s.store.rows) && InstancesOk(s) && ActorsR(s) && ConflictsOk(s) && (l.Step? ==> !l.oracle.blind)
    ensures ConflictsOk(Next(s, l))
  {
    match l {
      case Step(a, o) =>
        if a in s.actors && !Blocked(s, a) {
          if s.actors[a].pc.Commit? {
            CommitKeepsConflicts(s, a, o);
          } else {
            LocalStepKeepsConflicts(s, a, o);
          }
        }
      case ForeignPending(core) =>
        if CoreOk(core) && core.result.None? {
          ForeignKeepsConflicts(s, Insert(RowOf(core, PENDING, NO_FAILURE, None), None));
        }
      case ForeignSettle(id, status) =>
        if id < |s.store.rows| && ForeignWrite(s.store, id, status).Some? {
          ForeignWriteR(s.store, id, status);
          ForeignKeepsConflicts(s, ForeignWrite(s.store, id, status).value);
        }
      case Arrive(a, call) =>
        assert forall id: nat, ref: nat :: !PassedCheck(EntryPoint(call), id, ref);
        GrowthKeepsConflicts(s, Next(s, l));
      case Crash(a) => GrowthKeepsConflicts(s, Next(s, l));
    }
  }

  lemma {:induction false} ReachableConflicts(labels: seq<Label>)
    requires ExclusiveRun(labels) && Sighted(labels)
    ensures ConflictsOk(Exec(INIT, labels))
  {
    if labels != [] {
      var front := labels[..|labels| - 1];
      PrefixExclusive(labels, |labels| - 1);
      ReachableInv(front);
      ReachableR(front);
      ReachableConflicts(front);
      NextKeepsConflicts(Exec(INIT, front), labels[|labels| - 1]);
    }
  }

  // ---------------------------------------------------------------- counting conflicts

  /** The conflicts of row `id` over references below n. */
  function ConflictCount(conflicts: multiset<(nat, nat)>, id: nat, n: nat): nat {
    if n == 0 then 0 else ConflictCount(conflicts, id, n - 1) + conflicts[(id, n - 1)]
  }

  /** How many rows below n match the reference of row `id` and have been reversed. */
  ghost function ReversedMatches(rows: seq<Row>, id: nat, n: nat): nat {
    if n == 0 then 0 else ReversedMatches(rows, id, n - 1) + if PairReversed(rows, id, n - 1) then 1 else 0
  }

  lemma {:induction false} ConflictsCounted(s: Sys, id: nat, n: nat)
    requires ConflictsOk(s)
    ensures ConflictCount(s.conflicts, id, n) <= ReversedMatches(s.store.rows, id, n)
  {
    if n > 0 {
      ConflictsCounted(s, id, n - 1);
      assert ConflictOk(s, id, n - 1);
    }
  }

  lemma {:induction false} UniqueMatch(rows: seq<Row>, id: nat, n: nat)
    requires UniqueExternal(rows)
    ensures ReversedMatches(rows, id, n) <= 1
    ensures ReversedMatches(rows, id, n) == 1 ==> exists r :: 0 <= r < n && PairReversed(rows, id, r)
  {
    if n > 0 {
      UniqueMatch(rows, id, n - 1);
    }
  }

  // ---------------------------------------------------------------- results

  /** The step with which a resolution ends either leaves the row terminal, or is counted as a wait or a conflict. */
  lemma EndsOrCounts(s: Sys, a: nat, o: Oracle)
    requires InstancesOk(s) && a in s.actors && s.actors[a].call.Resolve? && !s.actors[a].pc.Done?
    requires ActorStep(s, a, o).actors[a].pc.Done?
    ensures var s', id := ActorStep(s, a, o), s.actors[a].call.id;
            id < |s'.store.rows| && s'.store.rows[id].state.status == PENDING_REFERENCE ==>
              || s'.waits == s.waits + multiset{id}
              || exists ref :: 0 <= ref < |s.store.rows| && s'.conflicts == s.conflicts + multiset{(id, ref)}
  {
    var actor := s.actors[a];
    assert PcOk(s.store, actor.call, actor.pc);
    if actor.pc.Commit? {
      WriteOkApplicable(s.store, actor.pc.write);
    }
  }

  // ---------------------------------------------------------------- counting resolutions

  /** The step ends a resolution of row `id` and the row is still parked. */
  ghost predicate EndsParked(s: Sys, l: Label, id: nat) {
    var s' := Next(s, l);
    && l.Step? && l.a in s.actors && s.actors[l.a].call == Resolve(id) && !s.actors[l.a].pc.Done?
    && l.a in s'.actors && s'.actors[l.a].pc.Done?
    && id < |s'.store.rows| && s'.store.rows[id].state.status == PENDING_REFERENCE
  }

  /** How many resolutions of row `id` have ended in the run with the row still parked. */
  ghost function ParkedEnds(labels: seq<Label>, id: nat): nat {
    if labels == [] then 0
    else
      var front := labels[..|labels| - 1];
      ParkedEnds(front, id) + if EndsParked(Exec(INIT, front), labels[|labels| - 1], id) then 1 else 0
  }

  /** The waits and conflicts of row `id`. */
  ghost function Stops(s: Sys, id: nat): nat {
    s.waits[id] + ConflictCount(s.conflicts, id, |s.store.rows|)
  }

  lemma {:induction false} CountMonotone(c: multiset<(nat, nat)>, c': multiset<(nat, nat)>, id: nat, n: nat, n': nat)
    requires c <= c' && n <= n'
    ensures ConflictCount(c, id, n) <= ConflictCount(c', id, n')
    decreases n'
  {
    if n < n' {
      CountMonotone(c, c', id, n, n' - 1);
    } else if n > 0 {
      CountMonotone(c, c', id, n - 1, n' - 1);
    }
  }

  lemma {:induction false} CountAdds(c: multiset<(nat, nat)>, id: nat, ref: nat, n: nat)
    requires ref < n
    ensures ConflictCount(c + multiset{(id, ref)}, id, n) >= ConflictCount(c, id, n) + 1
  {
    if ref < n - 1 {
      CountAdds(c, id, ref, n - 1);
    } else {
      CountMonotone(c, c + multiset{(id, ref)}, id, n - 1, n - 1);
    }
  }

  lemma CountersGrow(s: Sys, l: Label)
    ensures s.waits <= Next(s, l).waits && s.conflicts <= Next(s, l).conflicts
  {
  }

  lemma StopsGrow(s: Sys, l: Label, id: nat)
    requires Inv(s)
    ensures Stops(s, id) <= Stops(Next(s, l), id)
  {
    CountersGrow(s, l);
    NextEvolves(s, l);
    CountMonotone(s.conflicts, Next(s, l).conflicts, id, |s.store.rows|, |Next(s, l).store.rows|);
  }

  /** Every resolution that ends with its row still parked is a wait or a conflict. */
  lemma EndIsStop(s: Sys, l: Label, id: nat)
    requires Inv(s) && EndsParked(s, l, id)
    ensures Stops(s, id) + 1 <= Stops(Next(s, l), id)
  {
    var s' := Next(s, l);
    EndsOrCounts(s, l.a, l.oracle);
    CountersGrow(s, l);
    NextEvolves(s, l);
    CountMonotone(s.conflicts, s'.conflicts, id, |s.store.rows|, |s'.store.rows|);
    if s'.waits != s.waits + multiset{id} {
      var ref :| 0 <= ref < |s.store.rows| && s'.conflicts == s.conflicts + multiset{(id, ref)};
      CountAdds(s.conflicts, id, ref, |s.store.rows|);
      CountMonotone(s'.conflicts, s'.conflicts, id, |s.store.rows|, |s'.store.rows|);
    }
  }

  /** In every run, the resolutions that ended with the row still parked are at most its waits and conflicts. */
  lemma {:induction false} ParkedEndsCounted(labels: seq<Label>, id: nat)
    ensures ParkedEnds(labels, id) <= Stops(Exec(INIT, labels), id)
  {
    if labels != [] {
      var front, l := labels[..|labels| - 1], labels[|labels| - 1];
      ParkedEndsCounted(front, id);
      ReachableInv(front);
      StopsGrow(Exec(INIT, front), l, id);
      if EndsParked(Exec(INIT, front), l, id) {
        EndIsStop(Exec(INIT, front), l, id);
      }
    }
  }

  // ---------------------------------------------------------------- termination

  /**
   In an exclusive run without failing queries, finished resolutions leave a row waiting at most ten times and are
   stopped by the reversal index at most once for each row that matches its reference and has been reversed. So at most
   ten plus that many finished resolutions leave the row parked; every other one leaves it terminal.
   */
  lemma {:induction false} ResolutionTerminates(labels: seq<Label>, id: nat)
    requires ExclusiveRun(labels) && Sighted(labels)
    ensures var s := Exec(INIT, labels);
            && s.waits[id] <= MAX_REF_ATTEMPTS
            && (forall ref: nat :: s.conflicts[(id, ref)] <= if PairReversed(s.store.rows, id, ref) then 1 else 0)
            && ConflictCount(s.conflicts, id, |s.store.rows|) <= ReversedMatches(s.store.rows, id, |s.store.rows|)
            && ParkedEnds(labels, id) <= MAX_REF_ATTEMPTS + ReversedMatches(s.store.rows, id, |s.store.rows|)
  {
    ParkedEndsCounted(labels, id);
    WaitsBounded(labels, id);
    ReachableConflicts(labels);
    var s := Exec(INIT, labels);
    ConflictsCounted(s, id, |s.store.rows|);
    forall ref: nat
      ensures s.conflicts[(id, ref)] <= if PairReversed(s.store.rows, id, ref) then 1 else 0
    {
      assert ConflictOk(s, id, ref);
    }
  }

  /** With unique external identifiers that is at most one conflict, and at most eleven resolutions. */
  lemma {:induction false} OneConflict(labels: seq<Label>, id: nat)
    requires ExclusiveRun(labels) && Sighted(labels) && UniqueExternal(Exec(INIT, labels).store.rows)
    ensures ConflictCount(Exec(INIT, labels).conflicts, id, |Exec(INIT, labels).store.rows|) <= 1
    ensures ParkedEnds(labels, id) <= MAX_REF_ATTEMPTS + 1
  {
    ResolutionTerminates(labels, id);
    UniqueMatch(Exec(INIT, labels).store.rows, id, |Exec(INIT, labels).store.rows|);
  }

  /** The bound on waiting calls needs no unfailing queries. */
  lemma {:induction false} WaitsBounded(labels: seq<Label>, id: nat)
    requires ExclusiveRun(labels)
    ensures Exec(INIT, labels).waits[id] <= MAX_REF_ATTEMPTS
  {
    ReachableR(labels);
    WaitsAreAttempts(labels);
  }

  /** A resolution that ends leaves its row terminal, or is counted. */
  lemma {:induction false} ResolutionEnds(labels: seq<Label>, a: nat, o: Oracle)
    requires var s := Exec(INIT, labels);
             && a in s.actors && !Blocked(s, a) && s.actors[a].call.Resolve? && !s.actors[a].pc.Done?
             && a in Next(s, Step(a, o)).actors && Next(s, Step(a, o)).actors[a].pc.Done?
    ensures var s := Exec(INIT, labels);
            var s', id := Next(s, Step(a, o)), s.actors[a].call.id;
            id < |s'.store.rows| && s'.store.rows[id].state.status == PENDING_REFERENCE ==>
              || s'.waits == s.waits + multiset{id}
              || exists ref :: 0 <= ref < |s.store.rows| && s'.conflicts == s.conflicts + multiset{(id, ref)}
  {
    ReachableInv(labels);
    EndsOrCounts(Exec(INIT, labels), a, o);
  }
}
