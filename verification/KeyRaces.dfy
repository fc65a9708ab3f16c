/**
 Races between requests: under different keys two rows can share an external identifier, and under one key the loser
 of a race can be given the winner's row.
 */
module KeyRaces {
  import opened Results
  import opened WalletAggregate
  import opened Transactions
  import opened Tables
  import opened Machine
  import opened Invariants
  import opened StoreProofs
  import opened SystemProofs
  import opened Runs
  import opened ExternalIds
  import opened Termination
  import opened SoloRuns
  import opened Deferred
  import opened Scenarios

  // ---------------------------------------------------------------- a prepared call stores its row

  /** One row was added, for that request and key. */
  ghost predicate StoredOnce(st: Store, out: Store, req: Request, key: string) {
    && |out.rows| == |st.rows| + 1 && out.rows[..|st.rows|] == st.rows && out.wallets.Keys == st.wallets.Keys
    && out.rows[|st.rows|].core.req == req && out.rows[|st.rows|].core.key == key
  }

  /** Nothing stands in the way of a row for c. */
  ghost predicate Free(st: Store, c: Core) {
    c.req.wallet in st.wallets && NoKey(st.rows, c.req, c.key)
  }

  lemma InsertStores(st: Store, call: Call, row: Row, move: Option<Move>, after: After, o: Oracle)
    requires !after.RejectNext? && Free(st, row.core)
    requires move.Some? ==> move.value.wallet in st.wallets
    requires row.state.ref.Some? ==> !HasSuccessfulReversal(st.rows, row.state.ref.value)
    ensures StoredOnce(st, Solo(st, call, Commit(Insert(row, move), after), o).store, row.core.req, row.core.key)
  {
    SoloCommits(st, call, Insert(row, move), after, o);
  }

  lemma WalletErrorStores(st: Store, call: Call, job: Job, e: WalletError, o: Oracle)
    requires job.parked.None? && Free(st, job.core)
    ensures StoredOnce(st, Solo(st, call, OnWalletError(job, e), o).store, job.core.req, job.core.key)
  {
    var pc, failure := OnWalletError(job, e), WalletFailure(job.core.kind, e);
    if failure == WALLET_ERROR {
      InsertStores(st, call, RowOf(job.core, REJECTED, failure, None), None, pc.after, o);
    } else {
      SoloAdvances(st, call, pc, o);
      InsertStores(st, call, RejectedRow(st, job.core, failure), None, ReturnError(pc.error), o);
    }
  }

  lemma LockStores(st: Store, call: Call, job: Job, o: Oracle)
    requires job.parked.None? && Free(st, job.core)
    requires job.ref.Some? ==> !HasSuccessfulReversal(st.rows, job.ref.value)
    ensures StoredOnce(st, Solo(st, call, LockWallet(job), o).store, job.core.req, job.core.key)
  {
    SoloLock(st, call, job, o);
    var change := Change(st.wallets[job.core.req.wallet], job.dir, job.core.amount);
    if change.Failure? {
      WalletErrorStores(st, call, job, change.error, o);
    } else {
      var w := MoveWrite(job, change.value);
      InsertStores(st, call, w.row, w.move, Return, o);
    }
  }

  lemma RejectStores(st: Store, call: Call, c: Core, failure: FailureCode, o: Oracle)
    requires Free(st, c)
    ensures StoredOnce(st, Solo(st, call, Reject(c, failure), o).store, c.req, c.key)
  {
    InsertStores(st, call, RowOf(c, REJECTED, failure, None), None, Return, o);
  }

  lemma CheckStores(st: Store, call: Call, c: Core, r: nat, refRow: Row, o: Oracle)
    requires Free(st, c) && !o.blind
    ensures StoredOnce(st, Solo(st, call, CheckReversed(c, None, r, refRow), o).store, c.req, c.key)
  {
    var pc := CheckReversed(c, None, r, refRow);
    WalletStepRank(st, call, pc, o);
    SoloAdvances(st, call, pc, o);
    var next := Advance(st, call, pc, o);
    if next.LockWallet? {
      LockStores(st, call, next.job, o);
    } else {
      RejectStores(st, call, c, next.write.row.state.failure, o);
    }
  }

  /** What the lookup of the reference leads to. */
  lemma ReferenceLeads(c: Core, found: Option<nat>, rows: seq<Row>)
    requires found.Some? ==> found.value < |rows|
    ensures var pc := OnReferenceDirect(c, found, rows);
            || pc == LockWallet(Job(c, CREDIT, None, None))
            || (pc.CheckReversed? && pc.core == c && pc.parked.None?)
            || (pc.Commit? && pc.after == Return && pc.write.Insert? && pc.write.move.None?
                && pc.write.row.core == c && pc.write.row.state.ref.None?)
  {
  }

  lemma ReferenceStores(st: Store, call: Call, c: Core, o: Oracle)
    requires Free(st, c) && !o.blind
    ensures StoredOnce(st, Solo(st, call, FindReference(c, None), o).store, c.req, c.key)
  {
    var found := FindExternal(st.rows, c.req.provider, c.req.reference, o.pick);
    ReferenceRank(c, None, found, st.rows);
    SoloAdvances(st, call, FindReference(c, None), o);
    var next := OnReferenceDirect(c, found, st.rows);
    ReferenceLeads(c, found, st.rows);
    if next.LockWallet? {
      LockStores(st, call, next.job, o);
    } else if next.CheckReversed? {
      CheckStores(st, call, c, next.ref, next.refRow, o);
    } else {
      InsertStores(st, call, next.write.row, None, Return, o);
    }
  }

  lemma LossStores(st: Store, call: Call, c: Core, o: Oracle)
    requires Free(st, c)
    ensures StoredOnce(st, Solo(st, call, ReadLoss(c), o).store, c.req, c.key)
  {
    SoloAdvances(st, call, ReadLoss(c), o);
    InsertStores(st, call, LossRow(c, st.wallets[c.req.wallet].balance), None, Return, o);
  }

  /** A request that passes the checks, run alone with its wallet present and its key free, stores exactly one row. */
  lemma PreparedStores(st: Store, req: Request, key: string, o: Oracle)
    requires Prepare(req, key).Success? && Free(st, Prepare(req, key).value) && !o.blind
    ensures StoredOnce(st, Solo(st, Process(req, key), Dispatch(req, key), o).store, req, key)
  {
    var call, c, pc := Process(req, key), Prepare(req, key).value, Dispatch(req, key);
    if pc.LockWallet? {
      LockStores(st, call, pc.job, o);
    } else if pc.FindReference? {
      ReferenceStores(st, call, c, o);
    } else if pc.ReadLoss? {
      LossStores(st, call, c, o);
    } else {
      RejectStores(st, call, c, MISSING_REFERENCE, o);
    }
  }

  // ---------------------------------------------------------------- two keys for one external identifier

  /** The request can be stored: it passes the checks, and its wallet can exist. */
  ghost predicate Storable(req: Request, key: string) {
    Prepare(req, key).Success? && !Blank(req.wallet)
  }

  /** Only requests of the workload are sent; foreign processes store prepared requests only. */
  ghost predicate LabelWithin(l: Label, load: iset<(Request, string)>) {
    match l
    case Arrive(_, Process(req, key)) => (req, key) in load
    case ForeignPending(core) => (core.req, core.key) in load && Built(core)
    case _ => true
  }

  ghost predicate Within(labels: seq<Label>, load: iset<(Request, string)>) {
    forall k :: 0 <= k < |labels| ==> LabelWithin(labels[k], load)
  }

  /** The two wallets exist, and nothing else. */
  lemma {:induction false} WalletsFor(first: string, second: string, load: iset<(Request, string)>)
    returns (run: seq<Label>, s: Sys)
    requires !Blank(first) && !Blank(second)
    ensures Reaches(run, s) && Within(run, load) && s.actors == map[] && s.store.rows == []
    ensures first in s.store.wallets && second in s.store.wallets
  {
    LettersNotBlank();
    run, s := OpensFor([], INIT, "p", first);
    if second != first {
      assert "p"[0] != "q"[0];
      run, s := OpensFor(run, s, "q", second);
    }
  }

  /** A call that passed its checks while no row was stored now stores its row. */
  lemma {:induction false} Stores(run: seq<Label>, s: Sys, a: nat, req: Request, key: string)
    returns (run': seq<Label>, s': Sys)
    requires Reaches(run, s) && a in s.actors && Clear(s.actors, a)
    requires s.actors[a] == Actor(Process(req, key), Dispatch(req, key))
    requires Prepare(req, key).Success? && req.wallet in s.store.wallets && NoKey(s.store.rows, req, key)
    ensures Reaches(run', s') && BySteps(run, run') && StoredOnce(s.store, s'.store, req, key)
    ensures a in s'.actors && s'.actors[a].pc.Done? && s'.actors == s.actors[a := s'.actors[a]]
  {
    PreparedStores(s.store, req, key, O);
    run', s' := SoloBeside(run, s, a, O, 0);
  }

  lemma DispatchHolds(req: Request, key: string)
    ensures HeldWallet(Dispatch(req, key)).None? && HeldRow(Dispatch(req, key)).None?
  {
    DispatchLocks(req, key);
  }

  /** Both calls have passed their checks. */
  lemma {:induction false} BothPass(r: Request, k: string, q: Request, m: string) returns (run: seq<Label>, s: Sys)
    requires Storable(r, k) && Storable(q, m)
    ensures Reaches(run, s) && Within(run, iset{(r, k), (q, m)}) && s.store.rows == []
    ensures r.wallet in s.store.wallets && q.wallet in s.store.wallets
    ensures s.actors == map[1 := Actor(Process(r, k), Dispatch(r, k)), 2 := Actor(Process(q, m), Dispatch(q, m))]
  {
    DispatchHolds(r, k);
    var r0, s0 := WalletsFor(r.wallet, q.wallet, iset{(r, k), (q, m)});
    var r1, s1 := ArrivesAndPasses(r0, s0, 1, r, k);
    run, s := ArrivesAndPasses(r1, s1, 2, q, m);
  }

  /**
   Two requests that can be stored and share an external identifier under different keys: some interleaving of just
   these two calls stores both.
   */
  lemma {:induction false} RacingKeysStoreBoth(r: Request, k: string, q: Request, m: string) returns (run: seq<Label>)
    requires Storable(r, k) && Storable(q, m) && SharePair(r, q) && k != m
    ensures Within(run, iset{(r, k), (q, m)})
    ensures var rows := Exec(INIT, run).store.rows;
            && |rows| == 2 && rows[0].core.req == r && rows[0].core.key == k
            && rows[1].core.req == q && rows[1].core.key == m
            && SameExternal(rows[0].core, rows[1].core) && !UniqueExternal(rows)
  {
    var r1, s1 := FirstStores(r, k, q, m);
    var r2, s2 := Stores(r1, s1, 2, q, m);
    run := r2;
    assert s2.store.rows[0] == s2.store.rows[..1][0];
    assert SameExternal(s2.store.rows[0].core, s2.store.rows[1].core);
  }

  lemma {:induction false} FirstStores(r: Request, k: string, q: Request, m: string) returns (run: seq<Label>, s: Sys)
    requires Storable(r, k) && Storable(q, m) && k != m
    ensures Reaches(run, s) && Within(run, iset{(r, k), (q, m)}) && q.wallet in s.store.wallets
    ensures |s.store.rows| == 1 && s.store.rows[0].core.req == r && s.store.rows[0].core.key == k
    ensures 2 in s.actors && Clear(s.actors, 2) && s.actors[2] == Actor(Process(q, m), Dispatch(q, m))
  {
    DispatchHolds(q, m);
    var r0, s0 := BothPass(r, k, q, m);
    run, s := Stores(r0, s0, 1, r, k);
  }

  // ---------------------------------------------------------------- exactly when external identifiers are unique

  ghost predicate WalletsNamed(wallets: map<string, WalletRow>) {
    forall x :: x in wallets ==> !Blank(x)
  }

  lemma WriteKeepsNamed(st: Store, w: Write)
    requires WalletsNamed(st.wallets) && WriteOk(st, w) && Applicable(st, w) && Admits(st, w)
    ensures WalletsNamed(Apply(st, w).wallets)
  {
    ApplyWallets(st, w);
  }

  lemma {:induction false} ReachableNamed(labels: seq<Label>)
    ensures WalletsNamed(Exec(INIT, labels).store.wallets)
  {
    if labels != [] {
      var front, l := labels[..|labels| - 1], labels[|labels| - 1];
      var s := Exec(INIT, front);
      ReachableNamed(front);
      ReachableInv(front);
      NextByWrite(s, l);
      if Next(s, l).store != s.store {
        var w :| WriteOk(s.store, w) && Applicable(s.store, w) && Admits(s.store, w)
          && Next(s, l).store == Apply(s.store, w);
        WriteKeepsNamed(s.store, w);
      }
    }
  }

  lemma {:induction false} DeliveredWithin(labels: seq<Label>, load: iset<(Request, string)>, req: Request, key: string)
    requires Within(labels, load) && Delivered(labels, req, key)
    ensures (req, key) in load && Prepare(req, key).Success?
  {
    if Arrived(labels, req, key) && Prepare(req, key).Success? {
      var k :| 0 <= k < |labels| && labels[k].Arrive? && labels[k].call == Process(req, key);
      assert LabelWithin(labels[k], load);
    } else {
      var k :| 0 <= k < |labels| && labels[k].ForeignPending? && labels[k].core.req == req && labels[k].core.key == key;
      assert LabelWithin(labels[k], load);
    }
  }

  /** Every stored row is of a storable request of the workload. */
  lemma {:induction false} StoredWithin(labels: seq<Label>, load: iset<(Request, string)>, i: nat)
    requires Within(labels, load) && i < |Exec(INIT, labels).store.rows|
    requires Exec(INIT, labels).store.rows[i].core.kind != OPENING
    ensures var c := Exec(INIT, labels).store.rows[i].core; (c.req, c.key) in load && Storable(c.req, c.key)
  {
    ReachableInv(labels);
    ReachableDelivered(labels);
    ReachableNamed(labels);
    var c := Exec(INIT, labels).store.rows[i].core;
    DeliveredWithin(labels, load, c.req, c.key);
  }

  /** No two storable requests of the workload share an external identifier under different keys. */
  ghost predicate Agreeing(load: iset<(Request, string)>) {
    forall r, k, q, m
      | (r, k) in load && (q, m) in load && Storable(r, k) && Storable(q, m) && SharePair(r, q) :: k == m
  }

  lemma {:induction false} AgreeingRunsUnique(load: iset<(Request, string)>, labels: seq<Label>)
    requires Agreeing(load) && Within(labels, load)
    ensures UniqueExternal(Exec(INIT, labels).store.rows)
  {
    ReachableInv(labels);
    var rows := Exec(INIT, labels).store.rows;
    forall i, j | 0 <= i < |rows| && 0 <= j < |rows| && SameExternal(rows[i].core, rows[j].core)
      ensures i == j
    {
      assert RowOk(rows, rows[i]) && RowOk(rows, rows[j]);
      StoredWithin(labels, load, i);
      StoredWithin(labels, load, j);
      assert SameKey(rows[i].core, rows[j].core);
    }
  }

  lemma WithinLarger(labels: seq<Label>, load: iset<(Request, string)>, larger: iset<(Request, string)>)
    requires Within(labels, load) && load <= larger
    ensures Within(labels, larger)
  {
    forall k | 0 <= k < |labels|
      ensures LabelWithin(labels[k], larger)
    {
      assert LabelWithin(labels[k], load);
    }
  }

  /**
   External identifiers are unique in every interleaving of every workload drawn from `load` if and only if no two
   requests in it that can be stored share an external identifier under different keys.
   */
  lemma {:induction false} UniqueExactlyIfKeysAgree(load: iset<(Request, string)>)
    ensures Agreeing(load) <==>
            forall labels | Within(labels, load) :: UniqueExternal(Exec(INIT, labels).store.rows)
  {
    if Agreeing(load) {
      forall labels | Within(labels, load)
        ensures UniqueExternal(Exec(INIT, labels).store.rows)
      {
        AgreeingRunsUnique(load, labels);
      }
    } else {
      var r, k, q, m :| (r, k) in load && (q, m) in load && Storable(r, k) && Storable(q, m)
        && SharePair(r, q) && k != m;
      var run := RacingKeysStoreBoth(r, k, q, m);
      WithinLarger(run, iset{(r, k), (q, m)}, load);
    }
  }

  // ---------------------------------------------------------------- one key, two payloads

  /** The key index is about to refuse the row of instance a, because a row of another request has the key. */
  ghost predicate RefusedByOther(s: Sys, a: nat) {
    && a in s.actors && !Blocked(s, a)
    && match s.actors[a].pc
       case Commit(Insert(row, _), _) => KeyOfOther(s.store.rows, row.core.req, row.core.key)
       case _ => false
  }

  ghost predicate KeyOfOther(rows: seq<Row>, req: Request, key: string) {
    exists i :: 0 <= i < |rows| && HasKey(rows[i].core, req.provider, key) && rows[i].core.req != req
  }

  /** Some step of the present instance a was refused in this way. */
  ghost predicate LostToOther(labels: seq<Label>, a: nat) {
    labels != [] &&
    var front, l := labels[..|labels| - 1], labels[|labels| - 1];
    || (LostToOther(front, a) && l != Crash(a))
    || (l.Step? && l.a == a && RefusedByOther(Exec(INIT, front), a))
  }

  /** If the call is or will be answered with a row of another request, it lost a race to that row. */
  ghost predicate Explained(rows: seq<Row>, call: Call, pc: Pc, lost: bool) {
    call.Process? ==>
      match pc
      case FindDuplicate =>
        exists i :: 0 <= i < |rows| && HasKey(rows[i].core, call.req.provider, call.key)
                    && (rows[i].core.req != call.req ==> lost)
      case ReplayBalance(id, _) => id < |rows| && (rows[id].core.req != call.req ==> lost)
      case Done(Answer(id, _, _, _)) => id < |rows| && (rows[id].core.req != call.req ==> lost)
      case _ => true
  }

  lemma GrowthExplained(rows: seq<Row>, rows': seq<Row>, call: Call, pc: Pc, lost: bool)
    requires Grows(rows, rows') && Explained(rows, call, pc, lost)
    ensures Explained(rows', call, pc, lost)
  {
    if call.Process? && pc.FindDuplicate? {
      var i :| 0 <= i < |rows| && HasKey(rows[i].core, call.req.provider, call.key)
        && (rows[i].core.req != call.req ==> lost);
      assert HasKey(rows'[i].core, call.req.provider, call.key);
    }
  }

  lemma DuplicateExplained(st: Store, call: Call, o: Oracle, lost: bool)
    requires KeysUnique(st.rows) && call.Process? && Explained(st.rows, call, FindDuplicate, lost)
    ensures Explained(st.rows, call, Advance(st, call, FindDuplicate, o), lost)
  {
    var i :| 0 <= i < |st.rows| && HasKey(st.rows[i].core, call.req.provider, call.key)
      && (st.rows[i].core.req != call.req ==> lost);
    var found := FindKey(st.rows, call.req.provider, call.key);
    assert SameKey(st.rows[i].core, st.rows[found.value].core);
  }

  lemma DispatchExplained(rows: seq<Row>, req: Request, key: string, lost: bool)
    ensures Explained(rows, Process(req, key), Dispatch(req, key), lost)
  {
  }

  lemma AdvanceExplained(st: Store, call: Call, pc: Pc, o: Oracle, lost: bool)
    requires KeysUnique(st.rows) && PcOk(st, call, pc) && Explained(st.rows, call, pc, lost) && !pc.Commit?
    ensures Explained(st.rows, call, Advance(st, call, pc, o), lost)
  {
    if call.Process? {
      if pc.FindDuplicate? {
        DuplicateExplained(st, call, o, lost);
      } else if pc.CheckExternal? {
        DispatchExplained(st.rows, call.req, call.key, lost);
      }
    }
  }

  lemma CommittedExplained(st: Store, call: Call, w: Write, after: After, lost: bool)
    requires PcOk(st, call, Commit(w, after)) && Applicable(st, w)
    ensures Explained(Apply(st, w).rows, call, Committed(st, w, after), lost)
  {
    ApplyRows(st, w);
    if w.Insert? { InsertedCore(st, w); }
  }

  /** A refused row that leads to a second lookup was refused by its key. */
  lemma ViolatedExplained(st: Store, call: Call, w: Write, after: After, lost: bool)
    requires PcOk(st, call, Commit(w, after)) && !(Applicable(st, w) && Admits(st, w))
    requires w.Insert? && KeyOfOther(st.rows, w.row.core.req, w.row.core.key) ==> lost
    ensures Explained(st.rows, call, Violated(w, after), lost)
  {
    if call.Process? && Violated(w, after).FindDuplicate? {
      WriteOkApplicable(st, w);
      InsertBelongs(st, call, Commit(w, after));
      var i :| 0 <= i < |st.rows| && HasKey(st.rows[i].core, w.row.core.req.provider, w.row.core.key);
      assert st.rows[i].core.req != call.req ==> KeyOfOther(st.rows, w.row.core.req, w.row.core.key);
    }
  }

  lemma OwnStepExplained(s: Sys, a: nat, o: Oracle, lost: bool, lost': bool)
    requires ActorsOk(s) && KeysUnique(s.store.rows) && a in s.actors && !Blocked(s, a)
    requires Explained(s.store.rows, s.actors[a].call, s.actors[a].pc, lost) && (lost ==> lost')
    requires RefusedByOther(s, a) ==> lost'
    ensures Explained(ActorStep(s, a, o).store.rows, s.actors[a].call, ActorStep(s, a, o).actors[a].pc, lost')
  {
    var call, pc := s.actors[a].call, s.actors[a].pc;
    assert PcOk(s.store, call, pc);
    if !pc.Commit? {
      AdvanceExplained(s.store, call, pc, o, lost');
    } else if Applicable(s.store, pc.write) && Admits(s.store, pc.write) {
      CommittedExplained(s.store, call, pc.write, pc.after, lost');
    } else {
      ViolatedExplained(s.store, call, pc.write, pc.after, lost');
    }
  }

  /** A step of another instance, or one that must wait, leaves instance a where it is. */
  lemma StandsStill(s: Sys, l: Label, a: nat)
    requires a in s.actors && l != Crash(a) && !(l.Step? && l.a == a && !Blocked(s, a))
    ensures a in Next(s, l).actors && Next(s, l).actors[a] == s.actors[a]
  {
  }

  lemma CallKept(s: Sys, l: Label, a: nat)
    requires a in s.actors && l != Crash(a)
    ensures a in Next(s, l).actors && Next(s, l).actors[a].call == s.actors[a].call
  {
    if !(l.Step? && l.a == a && !Blocked(s, a)) { StandsStill(s, l, a); }
  }

  lemma NextExplained(s: Sys, l: Label, a: nat, lost: bool, lost': bool)
    requires Inv(s) && a in Next(s, l).actors && l != Crash(a)
    requires a in s.actors ==> Explained(s.store.rows, s.actors[a].call, s.actors[a].pc, lost) && (lost ==> lost')
    requires l.Step? && l.a == a && RefusedByOther(s, a) ==> lost'
    ensures Explained(Next(s, l).store.rows, Next(s, l).actors[a].call, Next(s, l).actors[a].pc, lost')
  {
    if a in s.actors {
      if l.Step? && l.a == a && !Blocked(s, a) {
        OwnStepExplained(s, a, l.oracle, lost, lost');
      } else {
        StandsStill(s, l, a);
        NextEvolves(s, l);
        GrowthExplained(s.store.rows, Next(s, l).store.rows, s.actors[a].call, s.actors[a].pc, lost');
      }
    }
  }

  lemma {:induction false} ReachableExplained(labels: seq<Label>, a: nat)
    requires a in Exec(INIT, labels).actors
    ensures var s := Exec(INIT, labels);
            Explained(s.store.rows, s.actors[a].call, s.actors[a].pc, LostToOther(labels, a))
  {
    if labels != [] {
      var front, l := labels[..|labels| - 1], labels[|labels| - 1];
      var s := Exec(INIT, front);
      ReachableInv(front);
      if a in s.actors {
        ReachableExplained(front, a);
      }
      NextExplained(s, l, a, LostToOther(front, a), LostToOther(labels, a));
    }
  }

  /** Whoever lost such a race finds the key taken by another request ever after. */
  lemma {:induction false} LostStaysLost(labels: seq<Label>, a: nat)
    requires LostToOther(labels, a)
    ensures var s := Exec(INIT, labels);
            && a in s.actors && s.actors[a].call.Process?
            && KeyOfOther(s.store.rows, s.actors[a].call.req, s.actors[a].call.key)
  {
    var front, l := labels[..|labels| - 1], labels[|labels| - 1];
    ReachableInv(front);
    if LostToOther(front, a) && l != Crash(a) {
      LostStaysLost(front, a);
    } else {
      RefusalMeansOther(Exec(INIT, front), a);
    }
    NextKeepsLost(Exec(INIT, front), l, a);
  }

  lemma RefusalMeansOther(s: Sys, a: nat)
    requires ActorsOk(s) && RefusedByOther(s, a)
    ensures s.actors[a].call.Process? && KeyOfOther(s.store.rows, s.actors[a].call.req, s.actors[a].call.key)
  {
    assert PcOk(s.store, s.actors[a].call, s.actors[a].pc);
    InsertBelongs(s.store, s.actors[a].call, s.actors[a].pc);
  }

  lemma NextKeepsLost(s: Sys, l: Label, a: nat)
    requires Inv(s) && a in s.actors && l != Crash(a) && s.actors[a].call.Process?
    requires KeyOfOther(s.store.rows, s.actors[a].call.req, s.actors[a].call.key)
    ensures a in Next(s, l).actors && Next(s, l).actors[a].call == s.actors[a].call
    ensures KeyOfOther(Next(s, l).store.rows, s.actors[a].call.req, s.actors[a].call.key)
  {
    CallKept(s, l, a);
    NextEvolves(s, l);
    KeyOfOtherStays(s.store.rows, Next(s, l).store.rows, s.actors[a].call.req, s.actors[a].call.key);
  }

  lemma KeyOfOtherStays(rows: seq<Row>, rows': seq<Row>, req: Request, key: string)
    requires Grows(rows, rows') && KeyOfOther(rows, req, key)
    ensures KeyOfOther(rows', req, key)
  {
    var i :| 0 <= i < |rows| && HasKey(rows[i].core, req.provider, key) && rows[i].core.req != req;
    assert HasKey(rows'[i].core, req.provider, key);
  }

  /**
   In every interleaving, a call is answered with the row of another request if and only if the key index refused its
   own row in favour of a row of another request: payloads are compared at the first lookup only.
   */
  lemma {:induction false} OtherPayloadAnsweredExactly(labels: seq<Label>, a: nat)
    ensures var s := Exec(INIT, labels);
            a in s.actors && s.actors[a].call.Process? && s.actors[a].pc.Done? && s.actors[a].pc.reply.Answer? ==>
              var id := s.actors[a].pc.reply.id;
              id < |s.store.rows| && (s.store.rows[id].core.req != s.actors[a].call.req <==> LostToOther(labels, a))
  {
    var s := Exec(INIT, labels);
    ReachableInv(labels);
    if a in s.actors && s.actors[a].call.Process? && s.actors[a].pc.Done? && s.actors[a].pc.reply.Answer? {
      var call, id := s.actors[a].call, s.actors[a].pc.reply.id;
      assert PcOk(s.store, call, s.actors[a].pc);
      ReachableExplained(labels, a);
      if LostToOther(labels, a) {
        LostStaysLost(labels, a);
        KeyRowIsOther(s.store.rows, call.req, call.key, id);
      }
    }
  }

  lemma KeyRowIsOther(rows: seq<Row>, req: Request, key: string, id: nat)
    requires KeysUnique(rows) && KeyOfOther(rows, req, key) && id < |rows| && HasKey(rows[id].core, req.provider, key)
    ensures rows[id].core.req != req
  {
    var i :| 0 <= i < |rows| && HasKey(rows[i].core, req.provider, key) && rows[i].core.req != req;
    assert SameKey(rows[i].core, rows[id].core);
  }

  // ---------------------------------------------------------------- such a race

  const WINNER := Unit("x", "k", "WIN", WIN, "")
  const LOSER := Unit("y", "k", "WIN", WIN, "")

  lemma RacersBuilt()
    ensures Built(WINNER) && TxOk(WINNER) && Built(LOSER) && TxOk(LOSER) && WINNER.req != LOSER.req
    ensures Dispatch(WINNER.req, "k") == LockWallet(Job(WINNER, CREDIT, None, None))
    ensures Dispatch(LOSER.req, "k") == LockWallet(Job(LOSER, CREDIT, None, None))
  {
    UnitBuilt("x", "k", "WIN", WIN, "");
    UnitBuilt("y", "k", "WIN", WIN, "");
    assert "x"[0] != "y"[0];
  }

  /** The second lookup of the key does not compare payloads. */
  lemma SoloReplaysOther(st: Store, row: Row)
    requires st.rows == [row] && WalletHolds(st, 100)
    requires row.core.req == WINNER.req && row.core.key == "k" && row.core.result.Some?
    ensures Solo(st, Process(LOSER.req, "k"), LockWallet(Job(LOSER, CREDIT, None, None)), O) ==
            Outcome(st, Done(Answer(0, row.state.status, row.core.result, true)))
  {
    var call, job := Process(LOSER.req, "k"), Job(LOSER, CREDIT, None, None);
    var change := Change(st.wallets["w"], CREDIT, ONE);
    assert change.Success?;
    SoloLock(st, call, job, O);
    assert AfterLock(st, job) == Commit(MoveWrite(job, change.value), Return);
    assert HasKey(st.rows[0].core, "v", "k");
    SoloCommit(st, call, MoveWrite(job, change.value), Return, O);
    SoloAdvances(st, call, FindDuplicate, O);
    SoloDone(st, call, Answer(0, row.state.status, row.core.result, true), O);
  }

  lemma {:induction false} RacersPass() returns (run: seq<Label>, s: Sys)
    ensures Reaches(run, s) && s.store.rows == [] && WalletHolds(s.store, 0)
    ensures s.actors == map[1 := Actor(Process(WINNER.req, "k"), LockWallet(Job(WINNER, CREDIT, None, None))),
                            2 := Actor(Process(LOSER.req, "k"), LockWallet(Job(LOSER, CREDIT, None, None)))]
  {
    RacersBuilt();
    var r0, s0 := OpenWallet();
    var r1, s1 := ArrivesAndPasses(r0, s0, 1, WINNER.req, "k");
    run, s := ArrivesAndPasses(r1, s1, 2, LOSER.req, "k");
  }

  lemma {:induction false} WinnerStores() returns (run: seq<Label>, s: Sys, row: Row)
    ensures Reaches(run, s) && s.store.rows == [row] && WalletHolds(s.store, 100)
    ensures row.core.req == WINNER.req && row.core.key == "k" && row.core.result.Some?
    ensures 2 in s.actors && Clear(s.actors, 2)
    ensures s.actors[2] == Actor(Process(LOSER.req, "k"), LockWallet(Job(LOSER, CREDIT, None, None)))
  {
    RacersBuilt();
    var r0, s0 := RacersPass();
    row := WinnerMoves(s0.store);
    run, s := SoloBeside(r0, s0, 1, O, 0);
  }

  lemma WinnerMoves(st: Store) returns (row: Row)
    requires st.rows == [] && WalletHolds(st, 0)
    ensures var lock := LockWallet(Job(WINNER, CREDIT, None, None));
            var out := Solo(st, Process(WINNER.req, "k"), lock, O).store;
            out.rows == [row] && WalletHolds(out, 100)
    ensures row.core.req == WINNER.req && row.core.key == "k" && row.core.result.Some?
  {
    RacersBuilt();
    SoloMovesFromLock(st, Process(WINNER.req, "k"), WINNER, CREDIT, 0, O);
    row := Solo(st, Process(WINNER.req, "k"), LockWallet(Job(WINNER, CREDIT, None, None)), O).store.rows[0];
  }

  /** Two payloads race under one key: the loser is answered, as a replay, with the row of the winner. */
  lemma LoserGetsOtherRow() returns (run: seq<Label>)
    ensures var s := Exec(INIT, run);
            && 2 in s.actors && s.actors[2].call.Process? && s.actors[2].pc.Done? && s.actors[2].pc.reply.Answer?
            && s.actors[2].pc.reply.replay && s.actors[2].pc.reply.id < |s.store.rows|
            && s.store.rows[s.actors[2].pc.reply.id].core.req != s.actors[2].call.req
  {
    RacersBuilt();
    var r0, s0, row := WinnerStores();
    SoloReplaysOther(s0.store, row);
    var r1, s1 := SoloBeside(r0, s0, 2, O, 0);
    run := r1;
  }
}
