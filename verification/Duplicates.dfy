/** The bound on index conflicts is reached: n rows of one external identifier can stop one resolution n times. */
module Duplicates {
  import opened Results
  import opened WalletAggregate
  import opened Transactions
  import opened Tables
  import opened Machine
  import opened Invariants
  import opened Exclusive
  import opened Termination
  import opened SoloRuns
  import opened Deferred
  import opened Scenarios
  import opened Histories

  // ---------------------------------------------------------------- the cast

  /** The n rows that share an external identifier. */
  function Dup(i: nat): Core {
    Unit("x", "k" + Name(i), "WIN", WIN, "")
  }

  /** The reversal that waits, and a row that fills the wallet. */
  const BACK := Unit("b", "b", "ROLLBACK", ROLLBACK, "x")
  const BASE := Unit("y", "y", "WIN", WIN, "")

  /** The reversal that overtakes the resolver in round i. */
  function Direct(i: nat): Core {
    Unit("d" + Name(i), "d" + Name(i), "ROLLBACK", ROLLBACK, "x")
  }

  lemma DupBuilt(i: nat)
    ensures TxOk(Dup(i)) && Built(Direct(i)) && TxOk(Direct(i))
  {
    UnitBuilt("x", "k" + Name(i), "WIN", WIN, "");
    UnitBuilt("d" + Name(i), "d" + Name(i), "ROLLBACK", ROLLBACK, "x");
  }

  lemma BackBuilt()
    ensures Built(BACK) && TxOk(BACK) && TxOk(BASE)
  {
    UnitBuilt("b", "b", "ROLLBACK", ROLLBACK, "x");
    UnitBuilt("y", "y", "WIN", WIN, "");
  }

  /** An oracle whose lookup returns row r if that matches. */
  function Picks(r: nat): Oracle {
    Oracle(r, false, "w")
  }

  // ---------------------------------------------------------------- the states between rounds

  /** After i rounds: rows 0 to i-1 are paid and reversed, the others up to n are still PENDING. */
  ghost predicate Stage(st: Store, n: nat, i: nat) {
    && i <= n && |st.rows| == n + 2 + i && WalletHolds(st, 100)
    && (forall j :: 0 <= j < n ==> st.rows[j] == if j < i then PaidRow(Dup(j)) else PendingRow(Dup(j)))
    && st.rows[n] == WaitingRow(BACK) && st.rows[n + 1] == PaidRow(BASE)
    && (forall q :: n + 2 <= q < |st.rows| ==> Overtakes(st.rows[q], q - n - 2))
  }

  predicate Overtakes(row: Row, j: nat) {
    row.core.key == "d" + Name(j) && row.core.req.externalId == "d" + Name(j) && Reverses(row, j)
  }

  /** In round i row i has been paid as well. */
  ghost predicate Midway(st: Store, n: nat, i: nat) {
    && i < n && |st.rows| == n + 2 + i && WalletHolds(st, 200)
    && (forall j :: 0 <= j < n ==> st.rows[j] == if j <= i then PaidRow(Dup(j)) else PendingRow(Dup(j)))
    && st.rows[n] == WaitingRow(BACK) && st.rows[n + 1] == PaidRow(BASE)
    && (forall q :: n + 2 <= q < |st.rows| ==> Overtakes(st.rows[q], q - n - 2))
  }

  lemma NotReversedYet(st: Store, n: nat, i: nat)
    requires Midway(st, n, i)
    ensures !HasSuccessfulReversal(st.rows, i)
  {
    forall q | 0 <= q < |st.rows|
      ensures !Reverses(st.rows[q], i)
    {
      if q >= n + 2 {
        assert Overtakes(st.rows[q], q - n - 2);
      }
    }
  }

  lemma DirectFresh(st: Store, n: nat, i: nat)
    requires Midway(st, n, i)
    ensures Fresh(st.rows, Direct(i))
  {
    forall q | 0 <= q < |st.rows|
      ensures st.rows[q].core.key != Direct(i).key && st.rows[q].core.req.externalId != Direct(i).req.externalId
    {
      assert Direct(i).key[0] == 'd' && |Direct(i).key| == i + 2;
      if q < n {
        assert Dup(q).key[0] == 'k' && Dup(q).req.externalId[0] == 'x';
      } else if q == n {
        assert BACK.key[0] == 'b';
      } else if q == n + 1 {
        assert BASE.key[0] == 'y';
      } else {
        assert Overtakes(st.rows[q], q - n - 2);
        assert |"d" + Name(q - n - 2)| == q - n;
      }
    }
  }

  lemma FindsDup(st: Store, n: nat, i: nat, c: Core)
    requires Midway(st, n, i) && (c == BACK || c == Direct(i))
    ensures Finds(st, c, i, Picks(i)) && ReversalDirection(c.kind, st.rows[i].core.kind) == Some(DEBIT)
  {
    BackBuilt();
    DupBuilt(i);
  }

  lemma MidwayResolvable(st: Store, n: nat, i: nat)
    requires Midway(st, n, i)
    ensures Resolvable(st, n, BACK, i, DEBIT, Picks(i))
  {
    FindsDup(st, n, i, BACK);
    NotReversedYet(st, n, i);
  }

  /** The reversal that overtakes goes through. */
  lemma DirectGoesThrough(st: Store, n: nat, i: nat)
    requires Midway(st, n, i)
    ensures var out := Solo(st, Process(Direct(i).req, Direct(i).key), FindByKey, Picks(i)).store;
            Stage(out, n, i + 1) && HasSuccessfulReversal(out.rows, i)
  {
    FindsDup(st, n, i, Direct(i));
    NotReversedYet(st, n, i);
    DirectFresh(st, n, i);
    assert Change(st.wallets["w"], DEBIT, ONE).Success?;
    SoloReverses(st, Direct(i), i, DEBIT, Picks(i));
    ReversalEffect(st, Direct(i), i, DEBIT, 200);
    NextStage(st, Apply(st, ReversalWrite(st, Direct(i), i, DEBIT)), n, i);
  }

  lemma NextStage(st: Store, out: Store, n: nat, i: nat)
    requires Midway(st, n, i) && |out.rows| == |st.rows| + 1 && out.rows[..|st.rows|] == st.rows
    requires WalletHolds(out, 100) && Overtakes(out.rows[|st.rows|], i)
    ensures Stage(out, n, i + 1) && HasSuccessfulReversal(out.rows, i)
  {
    assert forall q :: 0 <= q < |st.rows| ==> out.rows[q] == out.rows[..|st.rows|][q];
  }

  // ---------------------------------------------------------------- a resolver that is overtaken

  lemma LockPath(st: Store, id: nat, job: Job, o: Oracle)
    requires job.core.req.wallet == "w" && "w" in st.wallets
    requires Change(st.wallets["w"], job.dir, job.core.amount).Success?
    ensures var read := st.wallets["w"];
            var change := Change(read, job.dir, job.core.amount).value;
            && Advance(st, Resolve(id), LockWallet(job), o) == Update(job, read, change)
            && Advance(st, Resolve(id), Update(job, read, change), o) == Commit(MoveWrite(job, change), Return)
  {
  }

  lemma RefusedStep(s: Sys, a: nat, id: nat, job: Job, r: nat, change: BalanceChange, o: Oracle)
    requires Clear(s.actors, a) && (a in s.actors ==> s.actors[a].call == Resolve(id))
    requires job.parked == Some(id) && job.ref == Some(r) && HasSuccessfulReversal(s.store.rows, r)
    requires var t := WithResolver(s, a, id, Commit(MoveWrite(job, change), Return)); ActorsOk(t)
    ensures var t := WithResolver(s, a, id, Commit(MoveWrite(job, change), Return));
            var s' := Next(t, Step(a, o));
            && s'.store == s.store && s'.conflicts == s.conflicts + multiset{(id, r)}
            && s'.actors == s.actors[a := Actor(Resolve(id), Done(Refused(DatabaseFailure)))]
  {
    Unblocked(WithResolver(s, a, id, Commit(MoveWrite(job, change), Return)), a);
  }

  /** The resolver of row id, stopped at the wallet lock while its reference was reversed, meets the index. */
  lemma {:induction false} MeetsIndex(run: seq<Label>, s: Sys, a: nat, id: nat, job: Job, r: nat, o: Oracle)
    returns (run': seq<Label>, s': Sys)
    requires Reaches(run, WithResolver(s, a, id, LockWallet(job))) && Clear(s.actors, a) && !o.blind
    requires a in s.actors ==> s.actors[a].call == Resolve(id)
    requires job.core.req.wallet == "w" && "w" in s.store.wallets && job.parked == Some(id) && job.ref == Some(r)
    requires Change(s.store.wallets["w"], job.dir, job.core.amount).Success? && HasSuccessfulReversal(s.store.rows, r)
    ensures Reaches(run', s') && s'.store == s.store && s'.conflicts == s.conflicts + multiset{(id, r)}
    ensures s'.actors == s.actors[a := Actor(Resolve(id), Done(Refused(DatabaseFailure)))]
    ensures Good(run) && OnlyResolver(s.actors, a) ==> Good(run')
  {
    var read := s.store.wallets["w"];
    var change := Change(read, job.dir, job.core.amount).value;
    var commit := Commit(MoveWrite(job, change), Return);
    LockPath(s.store, id, job, o);
    var r1 := ResolverStep(run, s, a, id, o, LockWallet(job), Update(job, read, change));
    var r2 := ResolverStep(r1, s, a, id, o, Update(job, read, change), commit);
    ReachedOk(r2, WithResolver(s, a, id, commit));
    RefusedStep(s, a, id, job, r, change, o);
    Extend(r2, WithResolver(s, a, id, commit), Step(a, o), a);
    run', s' := r2 + [Step(a, o)], Next(WithResolver(s, a, id, commit), Step(a, o));
  }

  // ---------------------------------------------------------------- rounds

  /** Only finished instances, with numbers below k. */
  ghost predicate Quiescent(actors: map<nat, Actor>, k: nat) {
    forall a :: a in actors ==> a < k && actors[a].pc.Done?
  }

  lemma {:induction false} Pays(run: seq<Label>, s: Sys, n: nat, i: nat) returns (run': seq<Label>, s': Sys)
    requires Reaches(run, s) && Good(run) && Stage(s.store, n, i) && i < n && Quiescent(s.actors, 2 * i + 2)
    ensures Reaches(run', s') && Good(run') && Midway(s'.store, n, i)
    ensures s'.actors == s.actors && s'.conflicts == s.conflicts
  {
    ForeignPays(s, i, 100);
    Extend(run, s, ForeignSettle(i, PROCESSED), 0);
    run', s' := run + [ForeignSettle(i, PROCESSED)], Next(s, ForeignSettle(i, PROCESSED));
  }

  /** A resolver gets to the wallet lock with row i as its reference, and row i is reversed directly meanwhile. */
  lemma {:induction false} Overtaken(run: seq<Label>, s: Sys, n: nat, i: nat) returns (run': seq<Label>, s': Sys)
    requires Reaches(run, s) && Good(run) && Midway(s.store, n, i) && Quiescent(s.actors, 2 * i + 2)
    ensures Reaches(run', WithResolver(s', 2 * i + 2, n, LockWallet(UnitJob(BACK, DEBIT, i, n)))) && Good(run')
    ensures Stage(s'.store, n, i + 1) && HasSuccessfulReversal(s'.store.rows, i) && s'.conflicts == s.conflicts
    ensures 2 * i + 2 !in s'.actors && Quiescent(s'.actors, 2 * i + 4)
  {
    var a := 2 * i + 2;
    var r1 := PassesCheck(run, s, n, i, a);
    run', s' := Overtake(r1, s, n, i, a);
  }

  lemma {:induction false} Overtake(run: seq<Label>, s: Sys, n: nat, i: nat, a: nat) returns (run': seq<Label>, s': Sys)
    requires Reaches(run, WithResolver(s, a, n, LockWallet(UnitJob(BACK, DEBIT, i, n)))) && Good(run)
    requires Midway(s.store, n, i) && Quiescent(s.actors, a)
    ensures Reaches(run', WithResolver(s', a, n, LockWallet(UnitJob(BACK, DEBIT, i, n)))) && Good(run')
    ensures Stage(s'.store, n, i + 1) && HasSuccessfulReversal(s'.store.rows, i) && s'.conflicts == s.conflicts
    ensures a !in s'.actors && Quiescent(s'.actors, a + 2)
  {
    var call := Process(Direct(i).req, Direct(i).key);
    DirectGoesThrough(s.store, n, i);
    run', s' := CallBesideResolver(run, s, a, n, LockWallet(UnitJob(BACK, DEBIT, i, n)), a + 1, call, Picks(i));
  }

  lemma {:induction false} PassesCheck(run: seq<Label>, s: Sys, n: nat, i: nat, a: nat) returns (run': seq<Label>)
    requires Reaches(run, s) && Good(run) && Midway(s.store, n, i) && Quiescent(s.actors, a)
    ensures Reaches(run', WithResolver(s, a, n, LockWallet(UnitJob(BACK, DEBIT, i, n)))) && Good(run')
  {
    MidwayResolvable(s.store, n, i);
    run' := ReachesLock(run, s, a, n, BACK, i, DEBIT, Picks(i));
  }

  lemma {:induction false} Round(run: seq<Label>, s: Sys, n: nat, i: nat) returns (run': seq<Label>, s': Sys)
    requires Reaches(run, s) && Good(run) && Stage(s.store, n, i) && i < n && Quiescent(s.actors, 2 * i + 2)
    ensures Reaches(run', s') && Good(run') && Stage(s'.store, n, i + 1) && Quiescent(s'.actors, 2 * i + 4)
    ensures s'.conflicts == s.conflicts + multiset{(n, i)}
  {
    var r1, s1 := Pays(run, s, n, i);
    var r2, s2 := Overtaken(r1, s1, n, i);
    assert Change(s2.store.wallets["w"], DEBIT, ONE).Success?;
    run', s' := MeetsIndex(r2, s2, 2 * i + 2, n, UnitJob(BACK, DEBIT, i, n), i, Picks(i));
  }

  // ---------------------------------------------------------------- the beginning

  ghost predicate Pending(st: Store, n: nat) {
    |st.rows| == n && WalletHolds(st, 0) && forall j :: 0 <= j < n ==> st.rows[j] == PendingRow(Dup(j))
  }

  lemma DupFresh(st: Store, n: nat)
    requires Pending(st, n)
    ensures forall j :: 0 <= j < n ==> st.rows[j].core.key != Dup(n).key
  {
    forall j | 0 <= j < n
      ensures st.rows[j].core.key != Dup(n).key
    {
      assert |Dup(j).key| == j + 2 && |Dup(n).key| == n + 2;
    }
  }

  lemma {:induction false} AddDups(n: nat) returns (run: seq<Label>, s: Sys)
    ensures Reaches(run, s) && Good(run) && Pending(s.store, n) && s.actors == map[] && s.conflicts == multiset{}
  {
    if n == 0 {
      run, s := OpenWallet();
    } else {
      var r0, s0 := AddDups(n - 1);
      DupBuilt(n - 1);
      DupFresh(s0.store, n - 1);
      ForeignAdds(s0, Dup(n - 1));
      Extend(r0, s0, ForeignPending(Dup(n - 1)), 0);
      run, s := r0 + [ForeignPending(Dup(n - 1))], Next(s0, ForeignPending(Dup(n - 1)));
    }
  }

  lemma BackParks(st: Store, n: nat)
    requires Pending(st, n) && n > 0
    ensures var out := Solo(st, Process(BACK.req, "b"), FindByKey, O).store;
            out.rows == st.rows + [WaitingRow(BACK)] && WalletHolds(out, 0)
  {
    BackBuilt();
    forall j | 0 <= j < n
      ensures st.rows[j].core.key != "b" && st.rows[j].core.req.externalId != "b"
    {
      assert Dup(j).key[0] == 'k' && Dup(j).req.externalId[0] == 'x' && "b"[0] == 'b';
    }
    SoloParks(st, BACK, 0, O);
  }

  lemma BaseFresh(st: Store, n: nat)
    requires |st.rows| == n + 1 && st.rows[n] == WaitingRow(BACK)
    requires forall j :: 0 <= j < n ==> st.rows[j] == PendingRow(Dup(j))
    ensures forall j :: 0 <= j <= n ==> st.rows[j].core.key != BASE.key
  {
    assert BASE.key[0] == 'y' && BACK.key[0] == 'b';
    assert forall j: nat :: Dup(j).key[0] == 'k';
  }

  lemma {:induction false} Begin(n: nat) returns (run: seq<Label>, s: Sys)
    requires n > 0
    ensures Reaches(run, s) && Good(run) && Stage(s.store, n, 0) && Quiescent(s.actors, 2) && s.conflicts == multiset{}
  {
    var r1, s1 := Park(n);
    BackBuilt();
    BaseFresh(s1.store, n);
    run, s := ForeignMoves(r1, s1, BASE, 0);
  }

  lemma {:induction false} Park(n: nat) returns (run: seq<Label>, s: Sys)
    requires n > 0
    ensures Reaches(run, s) && Good(run) && Quiescent(s.actors, 2) && s.conflicts == multiset{}
    ensures WalletHolds(s.store, 0)
    ensures |s.store.rows| == n + 1 && s.store.rows[n] == WaitingRow(BACK)
    ensures forall j :: 0 <= j < n ==> s.store.rows[j] == PendingRow(Dup(j))
  {
    var r0, s0 := AddDups(n);
    BackParks(s0.store, n);
    var end;
    run, s, end := CallBeside(r0, s0, 1, Process(BACK.req, "b"), O, 0);
  }

  // ---------------------------------------------------------------- the end

  function Pairs(n: nat, i: nat): multiset<(nat, nat)> {
    if i == 0 then multiset{} else Pairs(n, i - 1) + multiset{(n, i - 1)}
  }

  ghost predicate RoundsDone(run: seq<Label>, s: Sys, n: nat, i: nat) {
    && Reaches(run, s) && Good(run) && Stage(s.store, n, i) && Quiescent(s.actors, 2 * i + 2)
    && s.conflicts == Pairs(n, i)
  }

  lemma {:induction false} NoRoundYet(n: nat) returns (run: seq<Label>, s: Sys)
    requires n > 0
    ensures RoundsDone(run, s, n, 0)
  {
    run, s := Begin(n);
  }

  lemma {:induction false} OneMoreRound(run: seq<Label>, s: Sys, n: nat, i: nat) returns (run': seq<Label>, s': Sys)
    requires 0 < i <= n && RoundsDone(run, s, n, i - 1)
    ensures RoundsDone(run', s', n, i)
  {
    run', s' := Round(run, s, n, i - 1);
    assert Pairs(n, i) == Pairs(n, i - 1) + multiset{(n, i - 1)};
  }

  lemma {:induction false} Rounds(n: nat, i: nat) returns (run: seq<Label>, s: Sys)
    requires n > 0 && i <= n
    ensures RoundsDone(run, s, n, i)
  {
    if i == 0 {
      run, s := NoRoundYet(n);
    } else {
      var before, t := Rounds(n, i - 1);
      run, s := OneMoreRound(before, t, n, i);
    }
  }

  lemma {:induction false} PairsCounted(n: nat, i: nat, r: nat)
    ensures Pairs(n, i)[(n, r)] == if r < i then 1 else 0
  {
    if i > 0 {
      PairsCounted(n, i - 1, r);
    }
  }

  /** In the end exactly the first n rows match the reference, and all of them have been reversed. */
  lemma MatchesReversed(st: Store, n: nat, r: nat)
    requires Stage(st, n, n) && r < |st.rows|
    ensures PairReversed(st.rows, n, r) <==> r < n
  {
    if r < n {
      assert Overtakes(st.rows[n + 2 + r], r);
    } else if r > n + 1 {
      assert Overtakes(st.rows[r], r - n - 2);
      assert st.rows[r].core.req.externalId[0] == 'd' && "x"[0] == 'x';
    } else {
      assert BACK.req.externalId[0] == 'b' && BASE.req.externalId[0] == 'y' && "x"[0] == 'x';
    }
  }

  lemma {:induction false} Counts(st: Store, n: nat, m: nat)
    requires Stage(st, n, n) && m <= |st.rows|
    ensures ConflictCount(Pairs(n, n), n, m) == ReversedMatches(st.rows, n, m) == if m < n then m else n
  {
    if m > 0 {
      Counts(st, n, m - 1);
      PairsCounted(n, n, m - 1);
      MatchesReversed(st, n, m - 1);
    }
  }

  /**
   For every n there is an exclusive run without failing queries in which the reversal index stops the resolution of a
   row n times: once for each of the n rows that match its reference and have been reversed.
   */
  lemma {:induction false} ConflictBoundAttained(n: nat) returns (run: seq<Label>)
    requires n > 0
    ensures ExclusiveRun(run) && Sighted(run)
    ensures var s := Exec(INIT, run);
            && n < |s.store.rows| && s.store.rows[n].state.status == PENDING_REFERENCE
            && ConflictCount(s.conflicts, n, |s.store.rows|) == n
            && ReversedMatches(s.store.rows, n, |s.store.rows|) == n
  {
    var s;
    run, s := Rounds(n, n);
    GoodQualifies(run);
    Counts(s.store, n, |s.store.rows|);
  }
}
