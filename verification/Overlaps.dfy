/**
 What goes wrong without the two assumptions: overlapping resolutions of one row can change a terminal status, and
 racing requests under different keys can store one external identifier twice.
 */
module Overlaps {
  import opened Results
  import opened WalletAggregate
  import opened Transactions
  import opened Tables
  import opened Machine
  import opened Invariants
  import opened StoreProofs
  import opened SystemProofs
  import opened ExternalIds
  import opened Exclusive
  import opened SoloRuns
  import opened Deferred
  import opened ReversalTheorems
  import opened Scenarios
  import opened KeyRaces

  // ---------------------------------------------------------------- which steps change a terminal row

  /** The step writes a rejection of row i after its claim was released, and the row does not already say so. */
  ghost predicate StaleRejection(s: Sys, l: Label, i: nat)
    requires i < |s.store.rows|
  {
    && l.Step? && l.a in s.actors && !Blocked(s, l.a)
    && match s.actors[l.a].pc
       case Commit(Settle(id, status, failure, _, _), Unclaimed(_)) =>
         id == i && (status != s.store.rows[i].state.status || failure != s.store.rows[i].state.failure)
       case _ => false
  }

  lemma CommitChangesTerminal(s: Sys, a: nat, o: Oracle, i: nat)
    requires ActorsOk(s) && a in s.actors && !Blocked(s, a) && s.actors[a].pc.Commit?
    requires i < |s.store.rows| && Terminal(s.store.rows[i].state.status)
    ensures i < |ActorStep(s, a, o).store.rows|
    ensures ActorStep(s, a, o).store.rows[i] != s.store.rows[i] <==> StaleRejection(s, Step(a, o), i)
  {
    var w := s.actors[a].pc.write;
    assert PcOk(s.store, s.actors[a].call, s.actors[a].pc);
    WriteOkApplicable(s.store, w);
    ApplyRows(s.store, w);
  }

  lemma ForeignKeepsTerminal(st: Store, id: nat, status: Status, i: nat)
    requires RowsOk(st.rows) && id < |st.rows| && ForeignWrite(st, id, status).Some?
    requires i < |st.rows| && Terminal(st.rows[i].state.status)
    ensures Applicable(st, ForeignWrite(st, id, status).value)
    ensures i < |Apply(st, ForeignWrite(st, id, status).value).rows|
    ensures Apply(st, ForeignWrite(st, id, status).value).rows[i] == st.rows[i]
  {
    var w := ForeignWrite(st, id, status).value;
    ForeignWriteOk(st, id, status);
    WriteOkApplicable(st, w);
    ApplyRows(st, w);
  }

  lemma StepChangesTerminal(s: Sys, l: Label, i: nat)
    requires RowsOk(s.store.rows) && ActorsOk(s) && i < |s.store.rows| && Terminal(s.store.rows[i].state.status)
    ensures i < |Next(s, l).store.rows|
    ensures Next(s, l).store.rows[i] != s.store.rows[i] <==> StaleRejection(s, l, i)
  {
    match l {
      case Step(a, o) =>
        if a in s.actors && !Blocked(s, a) && s.actors[a].pc.Commit? { CommitChangesTerminal(s, a, o, i); }
      case ForeignSettle(id, status) =>
        if id < |s.store.rows| && ForeignWrite(s.store, id, status).Some? {
          ForeignKeepsTerminal(s.store, id, status, i);
        }
      case _ =>
    }
  }

  /**
   In every reachable state, without any assumption, a terminal row changes exactly when a resolver that released its
   claim after a wallet error writes its rejection late.
   */
  lemma {:induction false} TerminalChangedExactly(labels: seq<Label>, l: Label, i: nat)
    requires i < |Exec(INIT, labels).store.rows| && Terminal(Exec(INIT, labels).store.rows[i].state.status)
    ensures i < |Exec(INIT, labels + [l]).store.rows|
    ensures Exec(INIT, labels + [l]).store.rows[i] != Exec(INIT, labels).store.rows[i] <==>
            StaleRejection(Exec(INIT, labels), l, i)
  {
    ReachableInv(labels);
    Extended(labels, l);
    StepChangesTerminal(Exec(INIT, labels), l, i);
  }

  // ---------------------------------------------------------------- one external identifier, two keys

  const LOST := Req("x", "LOSS", "0.00", "")

  /** The check for a reused external identifier is not atomic with the insert: two rows can share one. */
  lemma RaceDuplicatesExternal() returns (run: seq<Label>)
    ensures var rows := Exec(INIT, run).store.rows;
            |rows| == 2 && SameExternal(rows[0].core, rows[1].core) && !UniqueExternal(rows)
  {
    Amounts();
    LettersNotBlank();
    assert "k"[0] != "l"[0];
    run := RacingKeysStoreBoth(LOST, "k", LOST, "l");
  }

  // ---------------------------------------------------------------- two resolvers of one row

  const PAID := Unit("x", "x", "WIN", WIN, "")
  const UNDO := Unit("b", "b", "ROLLBACK", ROLLBACK, "x")
  const SPENT := Unit("y", "y", "BET", BET, "")
  const REFILL := Unit("z", "z", "WIN", WIN, "")

  lemma CastBuilt()
    ensures TxOk(PAID) && TxOk(SPENT) && TxOk(REFILL) && Built(UNDO) && TxOk(UNDO)
    ensures "x" != "b" && "x" != "y" && "x" != "z" && "b" != "y" && "b" != "z" && "y" != "z"
  {
    UnitBuilt("x", "x", "WIN", WIN, "");
    UnitBuilt("b", "b", "ROLLBACK", ROLLBACK, "x");
    UnitBuilt("y", "y", "BET", BET, "");
    UnitBuilt("z", "z", "WIN", WIN, "");
    assert "x"[0] == 'x' && "b"[0] == 'b' && "y"[0] == 'y' && "z"[0] == 'z';
  }

  /** A WIN is still PENDING, and its ROLLBACK is parked. */
  lemma {:induction false} ParksUndo() returns (run: seq<Label>, s: Sys)
    ensures Reaches(run, s) && WalletHolds(s.store, 0) && s.store.rows == [PendingRow(PAID), WaitingRow(UNDO)]
    ensures s.actors.Keys == {1} && s.actors[1].pc.Done?
  {
    CastBuilt();
    var r0, s0 := OpenWallet();
    ForeignAdds(s0, PAID);
    Extend(r0, s0, ForeignPending(PAID), 0);
    var r1, s1 := r0 + [ForeignPending(PAID)], Next(s0, ForeignPending(PAID));
    UndoParks(s1.store);
    var end;
    run, s, end := CallBeside(r1, s1, 1, Process(UNDO.req, "b"), O, 0);
  }

  lemma UndoParks(st: Store)
    requires st.rows == [PendingRow(PAID)] && WalletHolds(st, 0)
    ensures var out := Solo(st, Process(UNDO.req, "b"), FindByKey, O).store;
            out.rows == st.rows + [WaitingRow(UNDO)] && WalletHolds(out, 0)
  {
    CastBuilt();
    SoloParks(st, UNDO, 0, O);
  }

  function Late(): Pc {
    Commit(Settle(1, REJECTED, REVERSAL_INSUFFICIENT_BALANCE, None, None), Unclaimed(Some(InsufficientFunds)))
  }

  lemma UndoResolvable(st: Store)
    requires |st.rows| >= 2 && st.rows[0] == PaidRow(PAID) && st.rows[1] == WaitingRow(UNDO)
    requires forall i :: 0 <= i < |st.rows| ==> st.rows[i].state.ref.None?
    ensures Resolvable(st, 1, UNDO, 0, DEBIT, O)
  {
    CastBuilt();
  }

  lemma {:induction false} Drained() returns (run: seq<Label>, s: Sys)
    ensures Reaches(run, s) && WalletHolds(s.store, 0)
    ensures s.store.rows == [PaidRow(PAID), WaitingRow(UNDO), PaidRow(SPENT)]
    ensures s.actors.Keys == {1} && s.actors[1].pc.Done?
  {
    CastBuilt();
    var r0, s0 := ParksUndo();
    ForeignPays(s0, 0, 0);
    Extend(r0, s0, ForeignSettle(0, PROCESSED), 0);
    var r1, s1 := r0 + [ForeignSettle(0, PROCESSED)], Next(s0, ForeignSettle(0, PROCESSED));
    run, s := ForeignMoves(r1, s1, SPENT, 100);
  }

  /** The wallet is empty again when a resolver of row 1 locks it, so it releases its claim and is about to reject. */
  lemma {:induction false} FirstGivesUp() returns (run: seq<Label>, s: Sys)
    ensures Reaches(run, s) && WalletHolds(s.store, 0)
    ensures s.store.rows == [PaidRow(PAID), WaitingRow(UNDO), PaidRow(SPENT)]
    ensures s.actors.Keys == {1, 2} && s.actors[1].pc.Done? && s.actors[2] == Actor(Resolve(1), Late())
  {
    var r2, s2 := Drained();
    UndoResolvable(s2.store);
    var r3 := ReachesLock(r2, s2, 2, 1, UNDO, 0, DEBIT, O);
    LockFails(s2.store);
    run := ResolverStep(r3, s2, 2, 1, O, LockWallet(UnitJob(UNDO, DEBIT, 0, 1)), Late());
    s := WithResolver(s2, 2, 1, Late());
  }

  lemma LockFails(st: Store)
    requires WalletHolds(st, 0)
    ensures Advance(st, Resolve(1), LockWallet(UnitJob(UNDO, DEBIT, 0, 1)), O) == Late()
  {
  }

  /** A second resolver of row 1 finds money in the wallet. */
  lemma SecondSettles(st: Store)
    requires |st.rows| >= 2 && st.rows[0] == PaidRow(PAID) && st.rows[1] == WaitingRow(UNDO) && WalletHolds(st, 100)
    requires forall i :: 0 <= i < |st.rows| ==> st.rows[i].state.ref.None?
    ensures SettledBySecond(st, Solo(st, Resolve(1), FindParked, O).store)
  {
    UndoResolvable(st);
    ResolveReaches(st, 1, O);
    var result := ReferenceEnds(st, Resolve(1), UNDO, Some(1), 0, O);
    assert Change(st.wallets["w"], DEBIT, ONE).Success?;
    assert FateOf(st, UNDO, 0).Movement?;
  }

  /** Row 1 is processed with its ledger entry; nothing else has changed but the wallet. */
  ghost predicate SettledBySecond(st: Store, out: Store) {
    && |st.rows| == |out.rows| && |st.rows| > 1 && out.rows == st.rows[1 := out.rows[1]] && WalletHolds(out, 0)
    && out.rows[1].core == UNDO && Reverses(out.rows[1], 0)
    && |out.ledger| == |st.ledger| + 1 && out.ledger[|st.ledger|].tx == 1
  }

  lemma {:induction false} Refilled() returns (run: seq<Label>, s: Sys)
    ensures Reaches(run, s) && WalletHolds(s.store, 100)
    ensures s.store.rows == [PaidRow(PAID), WaitingRow(UNDO), PaidRow(SPENT), PaidRow(REFILL)]
    ensures s.actors.Keys == {1, 2} && s.actors[1].pc.Done? && s.actors[2] == Actor(Resolve(1), Late())
  {
    CastBuilt();
    var r0, s0 := FirstGivesUp();
    run, s := ForeignMoves(r0, s0, REFILL, 0);
  }

  lemma {:induction false} BothResolve() returns (run: seq<Label>, s: Sys, st: Store)
    ensures Reaches(run, s) && st.rows == [PaidRow(PAID), WaitingRow(UNDO), PaidRow(SPENT), PaidRow(REFILL)]
    ensures SettledBySecond(st, s.store)
    ensures s.actors.Keys == {1, 2, 3} && s.actors[1].pc.Done? && s.actors[3].pc.Done?
    ensures s.actors[2] == Actor(Resolve(1), Late())
  {
    var r0, s0 := Refilled();
    st := s0.store;
    SecondSettles(st);
    NobodyHolds(s0.actors, Actor(Resolve(1), FindParked));
    var end;
    run, s, end := CallBeside(r0, s0, 3, Resolve(1), O, 3);
  }

  lemma NobodyHolds(actors: map<nat, Actor>, third: Actor)
    requires actors.Keys == {1, 2} && actors[1].pc.Done? && actors[2] == Actor(Resolve(1), Late())
    requires third.pc.FindParked?
    ensures Clear(actors[3 := third], 3)
  {
  }

  /** The late rejection changes the status of row 1 and nothing else that matters. */
  lemma LateRejection(s: Sys)
    requires ActorsOk(s) && s.actors.Keys == {1, 2, 3} && s.actors[1].pc.Done? && s.actors[3].pc.Done?
    requires s.actors[2] == Actor(Resolve(1), Late()) && |s.store.rows| > 1
    ensures var s', row := Next(s, Step(2, O)), s.store.rows[1];
            && s'.store.rows == s.store.rows[1 := Settled(row, REJECTED, REVERSAL_INSUFFICIENT_BALANCE, None)]
            && s'.store.wallets == s.store.wallets && s'.store.ledger == s.store.ledger
            && s'.actors.Keys == {1, 2, 3} && s'.actors[1].pc.Done? && s'.actors[2].pc.Done? && s'.actors[3].pc.Done?
  {
    BesideStep(s, 2, O);
  }

  /** Two overlapping resolvers of row 1: it becomes PROCESSED and then REJECTED. */
  lemma OverlapOverwrites() returns (run: seq<Label>, l: Label)
    ensures |Exec(INIT, run).store.rows| > 1 && Exec(INIT, run).store.rows[1].state.status == PROCESSED
    ensures |Exec(INIT, run + [l]).store.rows| > 1 && Exec(INIT, run + [l]).store.rows[1].state.status == REJECTED
  {
    var r1, s1, st := BothResolve();
    run, l := r1, Step(2, O);
    ReachedOk(r1, s1);
    LateRejection(s1);
    Extend(r1, s1, l, 0);
  }

  // ---------------------------------------------------------------- one reference, two reversal entries

  const MORE := Unit("c", "c", "WIN", WIN, "")
  const AGAIN := Unit("d", "d", "ROLLBACK", ROLLBACK, "x")

  lemma MoreBuilt()
    ensures TxOk(MORE) && Built(AGAIN) && TxOk(AGAIN)
    ensures "c" !in {"x", "b", "y", "z", "d"} && "d" !in {"x", "b", "y", "z"}
  {
    UnitBuilt("c", "c", "WIN", WIN, "");
    UnitBuilt("d", "d", "ROLLBACK", ROLLBACK, "x");
    assert "c"[0] == 'c' && "d"[0] == 'd' && "x"[0] == 'x' && "b"[0] == 'b' && "y"[0] == 'y' && "z"[0] == 'z';
  }

  /** Row 1 is rejected although it has ledger entry m, so the index does not see it. */
  ghost predicate Overwritten(st: Store, cents: int, m: nat) {
    && |st.rows| >= 4 && st.rows[0] == PaidRow(PAID) && WalletHolds(st, cents)
    && st.rows[1].core == UNDO && st.rows[1].state.status == REJECTED && st.rows[1].state.ref == Some(0)
    && (forall i :: 0 <= i < |st.rows| && i != 1 ==> st.rows[i].state.ref.None?)
    && m < |st.ledger| && st.ledger[m].tx == 1
  }

  ghost predicate Cast(rows: seq<Row>, names: set<string>) {
    forall i :: 0 <= i < |rows| ==> rows[i].core.key in names && rows[i].core.req.externalId in names
  }

  lemma RejectionOverwrites(st: Store, mid: Store, out: Store)
    requires st.rows == [PaidRow(PAID), WaitingRow(UNDO), PaidRow(SPENT), PaidRow(REFILL)]
    requires SettledBySecond(st, mid) && out.wallets == mid.wallets && out.ledger == mid.ledger
    requires out.rows == mid.rows[1 := Settled(mid.rows[1], REJECTED, REVERSAL_INSUFFICIENT_BALANCE, None)]
    ensures Overwritten(out, 0, |st.ledger|) && Cast(out.rows, {"x", "b", "y", "z"})
  {
  }

  lemma {:induction false} OverwritesRow() returns (run: seq<Label>, s: Sys, m: nat)
    ensures Reaches(run, s) && Overwritten(s.store, 0, m) && Cast(s.store.rows, {"x", "b", "y", "z"})
    ensures s.actors.Keys == {1, 2, 3} && forall a :: a in s.actors ==> s.actors[a].pc.Done?
  {
    var r1, s1, st := BothResolve();
    ReachedOk(r1, s1);
    RejectedLate(s1, st);
    Extend(r1, s1, Step(2, O), 0);
    run, s, m := r1 + [Step(2, O)], Next(s1, Step(2, O)), |st.ledger|;
  }

  lemma RejectedLate(s: Sys, st: Store)
    requires st.rows == [PaidRow(PAID), WaitingRow(UNDO), PaidRow(SPENT), PaidRow(REFILL)]
    requires ActorsOk(s) && SettledBySecond(st, s.store) && s.actors.Keys == {1, 2, 3}
    requires s.actors[1].pc.Done? && s.actors[3].pc.Done? && s.actors[2] == Actor(Resolve(1), Late())
    ensures var s' := Next(s, Step(2, O));
            && Overwritten(s'.store, 0, |st.ledger|) && Cast(s'.store.rows, {"x", "b", "y", "z"})
            && s'.actors.Keys == {1, 2, 3} && forall a :: a in s'.actors ==> s'.actors[a].pc.Done?
  {
    LateRejection(s);
    RejectionOverwrites(st, s.store, Next(s, Step(2, O)).store);
  }

  lemma MoreKeeps(st: Store, out: Store, m: nat)
    requires Overwritten(st, 0, m) && Cast(st.rows, {"x", "b", "y", "z"})
    requires out.rows == st.rows + [PaidRow(MORE)] && WalletHolds(out, 100) && st.ledger <= out.ledger
    ensures Overwritten(out, 100, m) && Cast(out.rows, {"x", "b", "y", "z", "c"})
  {
  }

  lemma {:induction false} RefilledAgain() returns (run: seq<Label>, s: Sys, m: nat)
    ensures Reaches(run, s) && Overwritten(s.store, 100, m) && Cast(s.store.rows, {"x", "b", "y", "z", "c"})
    ensures s.actors.Keys == {1, 2, 3} && forall a :: a in s.actors ==> s.actors[a].pc.Done?
  {
    var r0, s0;
    r0, s0, m := OverwritesRow();
    MoreReady(s0.store.rows);
    run, s := ForeignMoves(r0, s0, MORE, 0);
    MoreKeeps(s0.store, s.store, m);
  }

  lemma MoreReady(rows: seq<Row>)
    requires Cast(rows, {"x", "b", "y", "z"})
    ensures TxOk(MORE) && forall i :: 0 <= i < |rows| ==> rows[i].core.key != MORE.key
  {
    MoreBuilt();
  }

  lemma AgainReady(st: Store, m: nat)
    requires Overwritten(st, 100, m) && Cast(st.rows, {"x", "b", "y", "z", "c"})
    ensures Finds(st, AGAIN, 0, O) && !HasSuccessfulReversal(st.rows, 0)
  {
    MoreBuilt();
  }

  lemma AgainFresh(rows: seq<Row>)
    requires Cast(rows, {"x", "b", "y", "z", "c"})
    ensures Fresh(rows, AGAIN)
  {
    MoreBuilt();
  }

  lemma AgainGoesThrough(st: Store, m: nat)
    requires Overwritten(st, 100, m) && Cast(st.rows, {"x", "b", "y", "z", "c"})
    ensures var out := Solo(st, Process(AGAIN.req, "d"), FindByKey, O).store;
            ReversalEntry(out, m, 0) && ReversalEntry(out, |st.ledger|, 0)
  {
    AgainReady(st, m);
    AgainFresh(st.rows);
    assert Change(st.wallets["w"], DEBIT, ONE).Success?;
    SoloReverses(st, AGAIN, 0, DEBIT, O);
    ReversalEffect(st, AGAIN, 0, DEBIT, 100);
    var out := Apply(st, ReversalWrite(st, AGAIN, 0, DEBIT));
    assert out.ledger[m] == out.ledger[..|st.ledger|][m] && out.rows[1] == out.rows[..|st.rows|][1];
  }

  /** Once a late rejection has freed the index, the same reference is reversed in money a second time. */
  lemma OverlapReversesTwice() returns (run: seq<Label>, m: nat, n: nat)
    ensures var st := Exec(INIT, run).store;
            m < n < |st.ledger| && ReversalEntry(st, m, 0) && ReversalEntry(st, n, 0)
  {
    var r0, s0;
    r0, s0, m := RefilledAgain();
    n := |s0.store.ledger|;
    AgainGoesThrough(s0.store, m);
    var r1, s1, end := CallBeside(r0, s0, 4, Process(AGAIN.req, "d"), O, 0);
    run := r1;
  }

  // ---------------------------------------------------------------- a refund of what credited the wallet

  const GAIN := Unit("x", "x", "WIN", WIN, "")
  const GIFT := Unit("y", "y", "REFUND", REFUND, "x")

  lemma GiftBuilt()
    ensures Built(GAIN) && TxOk(GAIN) && Built(GIFT) && TxOk(GIFT) && "x" != "y"
  {
    UnitBuilt("x", "x", "WIN", WIN, "");
    UnitBuilt("y", "y", "REFUND", REFUND, "x");
    assert "x"[0] == 'x' && "y"[0] == 'y';
  }

  /** A new wallet gains one unit by a WIN. */
  lemma {:induction false} Gains() returns (run: seq<Label>, row: Row)
    ensures Quiet(run) && Exec(INIT, run).actors == map[] && WalletHolds(Exec(INIT, run).store, 100)
    ensures Exec(INIT, run).store.rows == [row] && row.core.(result := None) == GAIN && row.state.status == PROCESSED
    ensures row.state.ref.None?
    ensures var l := Exec(INIT, run).store.ledger; |l| == 1 && Books(l[0], 0, CREDIT)
  {
    GiftBuilt();
    SoloOpens();
    var r0 := CallExtends([], Create("p", "v", ZERO), O);
    SoloMoves(Exec(INIT, r0).store, GAIN, CREDIT, 0, O);
    run := CallExtends(r0, Process(GAIN.req, GAIN.key), O);
    row := Exec(INIT, run).store.rows[0];
  }

  lemma GiftGoesThrough(st: Store, row: Row)
    requires WalletHolds(st, 100) && st.rows == [row] && row.core.(result := None) == GAIN
    requires row.state.status == PROCESSED && row.state.ref.None?
    ensures var out := Solo(st, Process(GIFT.req, GIFT.key), FindByKey, O).store;
            && |out.rows| == 2 && out.rows[0] == row && WalletHolds(out, 200)
            && out.rows[1].core.kind == REFUND && Reverses(out.rows[1], 0)
            && |out.ledger| == |st.ledger| + 1 && out.ledger[..|st.ledger|] == st.ledger
            && Books(out.ledger[|st.ledger|], 1, CREDIT)
  {
    GiftBuilt();
    assert Finds(st, GIFT, 0, O) && Change(st.wallets["w"], CREDIT, ONE).Success?;
    SoloReverses(st, GIFT, 0, CREDIT, O);
    ReversalEffect(st, GIFT, 0, CREDIT, 100);
  }

  /**
   A REFUND of a WIN is processed and credits the wallet a second time, even with calls made one after the other: the
   two entries do not cancel out.
   */
  lemma RefundCreditsTwice() returns (run: seq<Label>)
    ensures ExclusiveRun(run) && UniqueExternal(Exec(INIT, run).store.rows)
    ensures var st := Exec(INIT, run).store;
            && |st.rows| == 2 && |st.ledger| == 2 && WalletHolds(st, 200)
            && st.rows[0].core.kind == WIN && st.rows[0].state.status == PROCESSED
            && st.rows[1].core.kind == REFUND && Reverses(st.rows[1], 0)
            && Paired(st.rows, 1, st.ledger[1], st.ledger[0]) && st.ledger[1].dir == st.ledger[0].dir == CREDIT
            && Signed(st.ledger[1].dir, st.ledger[1].amount) + Signed(st.ledger[0].dir, st.ledger[0].amount) == 200
  {
    GiftBuilt();
    var r0, row := Gains();
    GiftGoesThrough(Exec(INIT, r0).store, row);
    run := CallExtends(r0, Process(GIFT.req, GIFT.key), O);
    QuietRunsQualify(run);
  }
}
