/** Concrete runs, built step by step: a run grows by labels, and what is claimed is about its last state. */
module Scenarios {
  import opened Results
  import opened MoneyValue
  import opened WalletAggregate
  import opened Transactions
  import opened Tables
  import opened Machine
  import opened Invariants
  import opened SystemProofs
  import opened ExternalIds
  import opened Exclusive
  import opened Termination
  import opened SoloRuns
  import opened Deferred

  const ZERO := Money(0, BRL)
  const ONE := Money(100, BRL)
  const O := Oracle(0, false, "w")

  function Req(externalId: string, kind: string, amount: string, reference: string): Request {
    Request("v", externalId, "p", "w", "r", "g", kind, amount, BRL, reference)
  }

  lemma Amounts()
    ensures Parse("1.00", BRL) == Success(ONE) && Parse("0.00", BRL) == Success(ZERO)
  {
    assert Text(ONE) == "1.00" && Text(ZERO) == "0.00";
    ParseText(ONE);
    ParseText(ZERO);
  }

  /** A transaction of one unit in the only wallet. */
  function Unit(externalId: string, key: string, name: string, kind: Kind, reference: string): Core {
    Core(Req(externalId, name, "1.00", reference), key, kind, ONE, None)
  }

  lemma UnitBuilt(externalId: string, key: string, name: string, kind: Kind, reference: string)
    requires externalId != "" && key != "" && ParseKind(name) == Some(kind) && kind != LOSS
    ensures Built(Unit(externalId, key, name, kind, reference)) && TxOk(Unit(externalId, key, name, kind, reference))
  {
    Amounts();
  }

  ghost predicate WalletHolds(st: Store, cents: int) {
    "w" in st.wallets && WalletRowOk(st.wallets["w"]) && st.wallets["w"].balance.amount as int == cents
  }

  // ---------------------------------------------------------------- runs

  ghost predicate Reaches(run: seq<Label>, s: Sys) {
    Exec(INIT, run) == s
  }

  lemma {:induction false} ReachedOk(run: seq<Label>, s: Sys)
    requires Reaches(run, s)
    ensures ActorsOk(s)
  {
    ReachableInv(run);
  }

  /** So far no two resolutions of a row have overlapped and no query has failed. */
  ghost predicate Good(run: seq<Label>) {
    && NoOverlap(Exec(INIT, run))
    && (run != [] ==>
          Good(run[..|run| - 1]) && (run[|run| - 1].Step? ==> !run[|run| - 1].oracle.blind))
  }

  lemma {:induction false} GoodPrefix(run: seq<Label>, k: nat)
    requires Good(run) && k <= |run|
    ensures Good(run[..k])
  {
    if k == |run| {
      assert run[..k] == run;
    } else {
      GoodPrefix(run[..|run| - 1], k);
      assert run[..|run| - 1][..k] == run[..k];
    }
  }

  lemma GoodEnd(run: seq<Label>)
    requires Good(run)
    ensures NoOverlap(Exec(INIT, run)) && (run != [] && run[|run| - 1].Step? ==> !run[|run| - 1].oracle.blind)
  {
  }

  lemma {:induction false} GoodQualifies(run: seq<Label>)
    requires Good(run)
    ensures ExclusiveRun(run) && Sighted(run)
  {
    forall k | 0 <= k <= |run|
      ensures NoOverlap(Exec(INIT, run[..k]))
    {
      GoodPrefix(run, k);
      GoodEnd(run[..k]);
    }
    forall k | 0 <= k < |run| && run[k].Step?
      ensures !run[k].oracle.blind
    {
      GoodPrefix(run, k + 1);
      GoodEnd(run[..k + 1]);
    }
  }

  /** No instance but r is resolving a row. */
  ghost predicate OnlyResolver(actors: map<nat, Actor>, r: nat) {
    forall b :: b in actors && Resolving(actors[b]).Some? ==> b == r
  }

  lemma {:induction false} Extend(run: seq<Label>, s: Sys, l: Label, r: nat)
    requires Reaches(run, s)
    ensures Reaches(run + [l], Next(s, l))
    ensures Good(run) && OnlyResolver(Next(s, l).actors, r) && (l.Step? ==> !l.oracle.blind) ==> Good(run + [l])
  {
    Extended(run, l);
    assert (run + [l])[..|run|] == run;
  }

  // ---------------------------------------------------------------- steps

  /** Nobody else holds a lock that instance a could need. */
  ghost predicate Clear(actors: map<nat, Actor>, a: nat) {
    forall b :: b in actors && b != a ==>
      HeldWallet(actors[b].pc).None? && (HeldRow(actors[b].pc).None? || (a in actors && actors[a].call.Process?))
  }

  lemma Unblocked(s: Sys, a: nat)
    requires ActorsOk(s) && a in s.actors && Clear(s.actors, a)
    ensures !Blocked(s, a)
  {
    assert PcOk(s.store, s.actors[a].call, s.actors[a].pc);
    if s.actors[a].call.Process? {
      assert WantedRow(s.actors[a].call, s.actors[a].pc).None?;
    }
  }

  lemma LocalStep(s: Sys, a: nat, o: Oracle)
    requires ActorsOk(s) && a in s.actors && Clear(s.actors, a) && !s.actors[a].pc.Commit?
    ensures Next(s, Step(a, o)) ==
            s.(actors := s.actors[a := Actor(s.actors[a].call, Advance(s.store, s.actors[a].call, s.actors[a].pc, o))])
  {
    Unblocked(s, a);
  }

  lemma BesideStep(s: Sys, a: nat, o: Oracle)
    requires ActorsOk(s) && a in s.actors && Clear(s.actors, a)
    ensures var next := SoloStep(s.store, s.actors[a].call, s.actors[a].pc, o);
            var s' := Next(s, Step(a, o));
            && s'.store == next.store && s'.actors == s.actors[a := Actor(s.actors[a].call, next.reply)]
            && (!s.actors[a].call.Resolve? ==> s'.conflicts == s.conflicts)
  {
    Unblocked(s, a);
    assert PcOk(s.store, s.actors[a].call, s.actors[a].pc);
  }

  lemma {:induction false} BesideExtends(run: seq<Label>, s: Sys, a: nat, o: Oracle, r: nat)
    requires Reaches(run, s) && a in s.actors && Clear(s.actors, a) && !o.blind
    ensures var s' := Next(s, Step(a, o));
            && Reaches(run + [Step(a, o)], s') && a in s'.actors && Clear(s'.actors, a)
            && s'.actors[a].call == s.actors[a].call
    ensures Good(run) && OnlyResolver(s.actors, r) && (s.actors[a].call.Resolve? ==> a == r) ==>
              Good(run + [Step(a, o)]) && OnlyResolver(Next(s, Step(a, o)).actors, r)
  {
    ReachedOk(run, s);
    BesideStep(s, a, o);
    Extend(run, s, Step(a, o), r);
  }

  /** Only at its end does a call take no step that brings it nearer to its end. */
  lemma Finished(st: Store, call: Call, pc: Pc, o: Oracle)
    requires PcOk(st, call, pc) && !call.Create? && Rank(SoloStep(st, call, pc, o).reply) >= Rank(pc)
    ensures pc.Done?
  {
    PointsFit(st, call, pc);
    if pc.Commit? {
      Termination.CommitRank(st, call, pc.write, pc.after);
    } else if !pc.Done? {
      AdvanceRank(st, call, pc, o);
    }
  }

  /** The run went on by steps of instances only. */
  ghost predicate BySteps(run: seq<Label>, run': seq<Label>) {
    run <= run' && forall k :: |run| <= k < |run'| ==> run'[k].Step?
  }

  /** Instance a finishes its call while all others stand still. */
  lemma {:induction false} SoloBeside(run: seq<Label>, s: Sys, a: nat, o: Oracle, r: nat)
    returns (run': seq<Label>, s': Sys)
    requires Reaches(run, s) && a in s.actors && Clear(s.actors, a) && !o.blind
    ensures Reaches(run', s') && BySteps(run, run')
    ensures var call, out := s.actors[a].call, Solo(s.store, s.actors[a].call, s.actors[a].pc, o);
            && s'.store == out.store && s'.actors == s.actors[a := Actor(call, out.reply)]
            && (!call.Resolve? ==> s'.conflicts == s.conflicts) && (!call.Create? ==> out.reply.Done?)
    ensures Good(run) && OnlyResolver(s.actors, r) && (s.actors[a].call.Resolve? ==> a == r) ==> Good(run')
    decreases Rank(s.actors[a].pc)
  {
    var call, pc := s.actors[a].call, s.actors[a].pc;
    var next := SoloStep(s.store, call, pc, o);
    if Rank(next.reply) < Rank(pc) {
      var s1 := Next(s, Step(a, o));
      ReachedOk(run, s);
      BesideStep(s, a, o);
      BesideExtends(run, s, a, o, r);
      SoloNext(s.store, call, pc, o);
      run', s' := SoloBeside(run + [Step(a, o)], s1, a, o, r);
    } else {
      run', s' := run, s;
      ReachedOk(run, s);
      assert PcOk(s.store, call, pc);
      if !call.Create? { Finished(s.store, call, pc, o); }
    }
  }

  /** A call arrives and finishes while all others stand still. */
  lemma {:induction false} CallBeside(run: seq<Label>, s: Sys, a: nat, call: Call, o: Oracle, r: nat)
    returns (run': seq<Label>, s': Sys, end: Actor)
    requires Reaches(run, s) && a !in s.actors && !o.blind && (call.Process? ==> call.key != "")
    requires Clear(s.actors[a := Actor(call, EntryPoint(call))], a)
    ensures Reaches(run', s') && BySteps(run + [Arrive(a, call)], run')
    ensures s'.store == Solo(s.store, call, EntryPoint(call), o).store
    ensures s'.actors == s.actors[a := end] && end.call == call
    ensures !call.Create? ==> end.pc.Done?
    ensures !call.Resolve? ==> s'.conflicts == s.conflicts
    ensures Good(run) && OnlyResolver(s.actors, r) && !call.Resolve? ==> Good(run')
  {
    var s1 := Next(s, Arrive(a, call));
    Extend(run, s, Arrive(a, call), r);
    run', s' := SoloBeside(run + [Arrive(a, call)], s1, a, o, r);
    end := s'.actors[a];
    assert s'.actors == s.actors[a := end];
  }

  /** A call whose key and external identifier are free arrives and passes both checks. */
  lemma {:induction false} ArrivesAndPasses(run: seq<Label>, s: Sys, a: nat, req: Request, key: string)
    returns (run': seq<Label>, s': Sys)
    requires Reaches(run, s) && a !in s.actors && key != "" && NoKey(s.store.rows, req, key)
    requires NoExternal(s.store.rows, req) && Clear(s.actors[a := Actor(Process(req, key), FindByKey)], a)
    ensures Reaches(run', s') && BySteps(run + [Arrive(a, Process(req, key))], run')
    ensures s'.store == s.store && s'.actors == s.actors[a := Actor(Process(req, key), Dispatch(req, key))]
  {
    var call := Process(req, key);
    Extend(run, s, Arrive(a, call), a);
    var r1, s1 := run + [Arrive(a, call)], Next(s, Arrive(a, call));
    var r2, s2 := Steps(r1, s1, a, CheckExternal);
    run', s' := Steps(r2, s2, a, Dispatch(req, key));
    assert s'.actors == s.actors[a := Actor(call, Dispatch(req, key))];
  }

  /** One step that does not commit. */
  lemma {:induction false} Steps(run: seq<Label>, s: Sys, a: nat, pc: Pc) returns (run': seq<Label>, s': Sys)
    requires Reaches(run, s) && a in s.actors && Clear(s.actors, a) && !s.actors[a].pc.Commit?
    requires Advance(s.store, s.actors[a].call, s.actors[a].pc, O) == pc
    ensures Reaches(run', s') && BySteps(run, run')
    ensures s' == s.(actors := s.actors[a := Actor(s.actors[a].call, pc)])
  {
    ReachedOk(run, s);
    LocalStep(s, a, O);
    Extend(run, s, Step(a, O), a);
    run', s' := run + [Step(a, O)], Next(s, Step(a, O));
  }

  // ---------------------------------------------------------------- the wallet

  lemma LetterNoSpace(c: char)
    requires 'a' <= c <= 'z'
    ensures !Space(c)
  {
    assert 'a' as int <= c as int <= 'z' as int;
    assert '\U{0085}' as int > 'z' as int && ' ' as int < 'a' as int;
  }

  lemma LettersNotBlank()
    ensures !Blank("p") && !Blank("q") && !Blank("v") && !Blank("w")
  {
    LetterNoSpace("p"[0]);
    LetterNoSpace("q"[0]);
    LetterNoSpace("v"[0]);
    LetterNoSpace("w"[0]);
  }

  function Names(id: string): Oracle {
    Oracle(0, false, id)
  }

  /** A player without a wallet gets an empty one. */
  lemma SoloOpensFor(st: Store, player: string, id: string)
    requires !Blank(player) && !Blank(id) && id !in st.wallets
    requires forall x :: x in st.wallets ==> st.wallets[x].player != player
    ensures Solo(st, Create(player, "v", ZERO), FindWallet, Names(id)).store == ApplyOpen(st, id, player, "v", ZERO)
    ensures Solo(st, Create(player, "v", ZERO), FindWallet, Names(id)).reply.Done?
  {
    LettersNotBlank();
    var call, w := Create(player, "v", ZERO), Open(id, player, "v", ZERO);
    SoloAdvances(st, call, FindWallet, Names(id));
    SoloCommit(st, call, w, Return, Names(id));
    SoloDone(Apply(st, w), call, Created(id), Names(id));
  }

  lemma SoloOpens()
    ensures Solo(EMPTY, Create("p", "v", ZERO), FindWallet, O).store == ApplyOpen(EMPTY, "w", "p", "v", ZERO)
    ensures Solo(EMPTY, Create("p", "v", ZERO), FindWallet, O).reply.Done?
    ensures WalletHolds(ApplyOpen(EMPTY, "w", "p", "v", ZERO), 0)
  {
    LettersNotBlank();
    SoloOpensFor(EMPTY, "p", "w");
  }

  /** The same as a run on an idle system. */
  lemma {:induction false} OpensFor(run: seq<Label>, s: Sys, player: string, id: string)
    returns (run': seq<Label>, s': Sys)
    requires Reaches(run, s) && s.actors == map[] && !Blank(player) && !Blank(id) && id !in s.store.wallets
    requires forall x :: x in s.store.wallets ==> s.store.wallets[x].player != player
    ensures Reaches(run', s') && s'.actors == map[]
    ensures run <= run' && forall k :: |run| <= k < |run'| ==> run'[k].Step? || run'[k].Crash? || IsCreation(run'[k])
    ensures s'.store == ApplyOpen(s.store, id, player, "v", ZERO)
  {
    SoloOpensFor(s.store, player, id);
    var r1, s1, end := CallBeside(run, s, 0, Create(player, "v", ZERO), Names(id), 0);
    Extend(r1, s1, Crash(0), 0);
    run', s' := r1 + [Crash(0)], Next(s1, Crash(0));
  }

  predicate IsCreation(l: Label) {
    l.Arrive? && l.call.Create?
  }

  /** An empty wallet and nothing else. */
  lemma {:induction false} OpenWallet() returns (run: seq<Label>, s: Sys)
    ensures Reaches(run, s) && Good(run) && s.actors == map[] && s.conflicts == multiset{}
    ensures s.store.rows == [] && WalletHolds(s.store, 0)
  {
    SoloOpens();
    var r1, s1, end := CallBeside([], INIT, 0, Create("p", "v", ZERO), O, 0);
    Extend(r1, s1, Crash(0), 0);
    run, s := r1 + [Crash(0)], Next(s1, Crash(0));
  }

  // ---------------------------------------------------------------- foreign rows

  function PendingRow(core: Core): Row {
    RowOf(core, PENDING, NO_FAILURE, None)
  }

  function PaidRow(core: Core): Row {
    RowOf(core, PROCESSED, NO_FAILURE, None)
  }

  /** A foreign process stores a PENDING row under a new key. */
  lemma ForeignAdds(s: Sys, core: Core)
    requires TxOk(core) && core.req.wallet == "w" && "w" in s.store.wallets
    requires forall i :: 0 <= i < |s.store.rows| ==> s.store.rows[i].core.key != core.key
    ensures var s' := Next(s, ForeignPending(core));
            && s'.store.rows == s.store.rows + [PendingRow(core)] && s'.store.wallets == s.store.wallets
            && s'.store.ledger == s.store.ledger && s'.actors == s.actors && s'.conflicts == s.conflicts
  {
  }

  /** What settling a PENDING row of one unit changes. */
  lemma ForeignPayment(st: Store, id: nat, cents: int)
    requires id < |st.rows| && st.rows[id].state.status == PENDING && WalletHolds(st, cents)
    requires st.rows[id].core.kind in {BET, WIN} && st.rows[id].core.req.wallet == "w" && st.rows[id].core.amount == ONE
    requires 100 <= cents < 1000
             || (cents == 0 && st.rows[id].core.kind == WIN)
    ensures var w := ForeignWrite(st, id, PROCESSED);
            && w.Some? && w.value.Settle? && w.value == Settle(id, PROCESSED, NO_FAILURE, None, w.value.move)
            && w.value.move.Some? && w.value.move.value.wallet == "w"
            && Presentable(w.value.move.value.change.after)
            && w.value.move.value.change.after.amount as int ==
               cents + if st.rows[id].core.kind == BET then -100 else 100
  {
    var change := Change(st.wallets["w"], if st.rows[id].core.kind == BET then DEBIT else CREDIT, ONE);
    assert change.Success?;
  }

  lemma ForeignPays(s: Sys, id: nat, cents: int)
    requires id < |s.store.rows| && s.store.rows[id] == PendingRow(s.store.rows[id].core) && WalletHolds(s.store, cents)
    requires s.store.rows[id].core.kind in {BET, WIN} && s.store.rows[id].core.req.wallet == "w"
    requires s.store.rows[id].core.amount == ONE
    requires (100 <= cents < 1000 || (cents == 0 && s.store.rows[id].core.kind == WIN))
    requires forall b :: b in s.actors ==> HeldWallet(s.actors[b].pc).None?
    ensures var s' := Next(s, ForeignSettle(id, PROCESSED));
            && s'.store.rows == s.store.rows[id := PaidRow(s.store.rows[id].core)]
            && WalletHolds(s'.store, cents + if s.store.rows[id].core.kind == BET then -100 else 100)
            && s.store.ledger <= s'.store.ledger && s'.actors == s.actors && s'.conflicts == s.conflicts
  {
    ForeignPayment(s.store, id, cents);
  }

  /** A foreign process stores a row of one unit and settles it. */
  lemma {:induction false} ForeignMoves(run: seq<Label>, s: Sys, core: Core, cents: int)
    returns (run': seq<Label>, s': Sys)
    requires Reaches(run, s) && WalletHolds(s.store, cents) && TxOk(core) && core.req.wallet == "w"
    requires core.amount == ONE
    requires core.kind in {BET, WIN} && (cents == 0 || cents == 100) && (cents == 0 ==> core.kind == WIN)
    requires forall i :: 0 <= i < |s.store.rows| ==> s.store.rows[i].core.key != core.key
    requires forall b :: b in s.actors ==> HeldWallet(s.actors[b].pc).None?
    ensures Reaches(run', s') && s'.store.rows == s.store.rows + [PaidRow(core)] && s'.actors == s.actors
    ensures WalletHolds(s'.store, cents + if core.kind == BET then -100 else 100)
    ensures s.store.ledger <= s'.store.ledger && s'.conflicts == s.conflicts
    ensures Good(run) && OnlyResolver(s.actors, 0) ==> Good(run')
  {
    var n := |s.store.rows|;
    ForeignAdds(s, core);
    Extend(run, s, ForeignPending(core), 0);
    var r1, s1 := run + [ForeignPending(core)], Next(s, ForeignPending(core));
    ForeignPays(s1, n, cents);
    Extend(r1, s1, ForeignSettle(n, PROCESSED), 0);
    run', s' := r1 + [ForeignSettle(n, PROCESSED)], Next(s1, ForeignSettle(n, PROCESSED));
  }

  // ---------------------------------------------------------------- reversals

  function WaitingRow(c: Core): Row {
    RowOf(c, PENDING_REFERENCE, NO_FAILURE, None)
  }

  /** A reversal of one unit whose lookup returns row r. */
  ghost predicate Finds(st: Store, c: Core, r: nat, o: Oracle) {
    && Built(c) && TxOk(c) && Reversal(c.kind) && c.amount == ONE && c.req.wallet == "w" && c.req.reference != ""
    && r < |st.rows| && FindExternal(st.rows, c.req.provider, c.req.reference, o.pick) == Some(r)
    && ValidateReference(c, st.rows[r].core).None? && st.rows[r].core.amount == ONE
    && !o.blind
  }

  ghost predicate Fresh(rows: seq<Row>, c: Core) {
    NoKey(rows, c.req, c.key) && NoExternal(rows, c.req)
  }

  /** A reversal of a PENDING row is parked. */
  lemma SoloParks(st: Store, c: Core, r: nat, o: Oracle)
    requires Finds(st, c, r, o) && Fresh(st.rows, c) && st.rows[r].state.status == PENDING && "w" in st.wallets
    ensures var out := Solo(st, Process(c.req, c.key), FindByKey, o);
            out.store == Apply(st, Insert(WaitingRow(c), None)) && out.reply.Done?
  {
    var call, w := Process(c.req, c.key), Insert(WaitingRow(c), None);
    ProcessReaches(st, c, o);
    ReferenceRank(c, None, Some(r), st.rows);
    SoloAdvances(st, call, FindReference(c, None), o);
    SoloCommit(st, call, w, Return, o);
    SoloDone(Apply(st, w), call, AnswerFor(st, w), o);
  }

  /** The row and the movement of a reversal of one unit that goes through. */
  function ReversalWrite(st: Store, c: Core, r: nat, dir: Direction): Write
    requires "w" in st.wallets && Change(st.wallets["w"], dir, ONE).Success?
  {
    var change := Change(st.wallets["w"], dir, ONE).value;
    Insert(RowOf(c.(result := Some(change.after)), PROCESSED, NO_FAILURE, Some(r)), Some(Move("w", dir, ONE, change)))
  }

  /** A reversal of a PROCESSED row that has not been reversed goes through. */
  lemma SoloReverses(st: Store, c: Core, r: nat, dir: Direction, o: Oracle)
    requires Finds(st, c, r, o) && Fresh(st.rows, c) && st.rows[r].state.status == PROCESSED
    requires "w" in st.wallets && WalletRowOk(st.wallets["w"]) && Change(st.wallets["w"], dir, ONE).Success?
    requires ReversalDirection(c.kind, st.rows[r].core.kind) == Some(dir) && !HasSuccessfulReversal(st.rows, r)
    ensures Solo(st, Process(c.req, c.key), FindByKey, o).store == Apply(st, ReversalWrite(st, c, r, dir))
  {
    var call := Process(c.req, c.key);
    ProcessReaches(st, c, o);
    assert Referable(st, c, r) && Writable(st, c, None);
    var result := ReferenceEnds(st, call, c, None, r, o);
    assert FateOf(st, c, r) == Movement(dir, Change(st.wallets["w"], dir, ONE).value);
  }

  /** What that leaves. */
  lemma ReversalEffect(st: Store, c: Core, r: nat, dir: Direction, cents: int)
    requires WalletHolds(st, cents) && Change(st.wallets["w"], dir, ONE).Success? && Reversal(c.kind)
    ensures var out := Apply(st, ReversalWrite(st, c, r, dir));
            && |out.rows| == |st.rows| + 1 && out.rows[..|st.rows|] == st.rows
            && WalletHolds(out, cents + if dir == CREDIT then 100 else -100)
            && out.rows[|st.rows|].core.req == c.req && out.rows[|st.rows|].core.key == c.key
            && out.rows[|st.rows|].core.kind == c.kind && Reverses(out.rows[|st.rows|], r)
            && |out.ledger| == |st.ledger| + 1 && out.ledger[..|st.ledger|] == st.ledger
            && Books(out.ledger[|st.ledger|], |st.rows|, dir)
  {
  }

  // ---------------------------------------------------------------- bets and wins

  /** The entry of one unit for row tx. */
  predicate Books(e: Entry, tx: nat, dir: Direction) {
    e.wallet == "w" && e.tx == tx && e.dir == dir && e.amount == ONE
  }

  /** What a BET or WIN of one unit without a reference leaves. */
  ghost predicate Moved(st: Store, out: Store, c: Core, dir: Direction, cents: int) {
    && |out.rows| == |st.rows| + 1 && out.rows[..|st.rows|] == st.rows && WalletHolds(out, cents)
    && out.rows[|st.rows|].core.(result := None) == c && out.rows[|st.rows|].core.result.Some?
         && out.rows[|st.rows|].state == State(PROCESSED, NO_FAILURE, None, 0)
    && |out.ledger| == |st.ledger| + 1 && out.ledger[..|st.ledger|] == st.ledger
    && Books(out.ledger[|st.ledger|], |st.rows|, dir)
  }

  lemma MoveEffect(st: Store, c: Core, dir: Direction, cents: int)
    requires WalletHolds(st, cents) && Change(st.wallets["w"], dir, ONE).Success?
    requires TxOk(c) && c.req.wallet == "w" && c.amount == ONE
    ensures var w := MoveWrite(Job(c, dir, None, None), Change(st.wallets["w"], dir, ONE).value);
            Applicable(st, w) && Moved(st, Apply(st, w), c, dir, cents + if dir == CREDIT then 100 else -100)
  {
    assert c.(result := None) == c;
  }

  lemma SoloMovesFromLock(st: Store, call: Call, c: Core, dir: Direction, cents: int, o: Oracle)
    requires TxOk(c) && c.req.wallet == "w" && c.amount == ONE && cents == (if dir == DEBIT then 100 else 0)
    requires Fresh(st.rows, c) && WalletHolds(st, cents)
    ensures Moved(st, Solo(st, call, LockWallet(Job(c, dir, None, None)), o).store, c, dir,
                  cents + if dir == CREDIT then 100 else -100)
  {
    var job, change := Job(c, dir, None, None), Change(st.wallets["w"], dir, ONE);
    assert change.Success?;
    SoloLock(st, call, job, o);
    assert AfterLock(st, job) == Commit(MoveWrite(job, change.value), Return);
    MoveEffect(st, c, dir, cents);
    SoloCommits(st, call, MoveWrite(job, change.value), Return, o);
  }

  lemma SoloMoves(st: Store, c: Core, dir: Direction, cents: int, o: Oracle)
    requires Built(c) && TxOk(c) && c.req.wallet == "w" && c.amount == ONE && c.req.reference == ""
    requires if dir == DEBIT then c.kind == BET && cents == 100 else c.kind == WIN && cents == 0
    requires Fresh(st.rows, c) && WalletHolds(st, cents)
    ensures Moved(st, Solo(st, Process(c.req, c.key), FindByKey, o).store, c, dir,
                  cents + if dir == CREDIT then 100 else -100)
  {
    var call := Process(c.req, c.key);
    SoloAdvances(st, call, FindByKey, o);
    assert Dispatch(c.req, c.key) == LockWallet(Job(c, dir, None, None));
    SoloAdvances(st, call, CheckExternal, o);
    SoloMovesFromLock(st, call, c, dir, cents, o);
  }

  /** Row id waits with a reversal c that can go through against row r. */
  ghost predicate Resolvable(st: Store, id: nat, c: Core, r: nat, dir: Direction, o: Oracle) {
    && Finds(st, c, r, o) && id < |st.rows| && st.rows[id] == WaitingRow(c)
    && st.rows[r].state.status == PROCESSED && !HasSuccessfulReversal(st.rows, r)
    && ReversalDirection(c.kind, st.rows[r].core.kind) == Some(dir)
  }

  /** The way of a resolver of row id to the wallet lock. */
  lemma ResolverPath(st: Store, id: nat, c: Core, r: nat, dir: Direction, o: Oracle)
    requires Resolvable(st, id, c, r, dir, o)
    ensures Advance(st, Resolve(id), FindParked, o) == Claim(st.rows[id])
    ensures Advance(st, Resolve(id), Claim(st.rows[id]), o) == FindReference(c, Some(id))
    ensures Advance(st, Resolve(id), FindReference(c, Some(id)), o) == CheckReversed(c, Some(id), r, st.rows[r])
    ensures Advance(st, Resolve(id), CheckReversed(c, Some(id), r, st.rows[r]), o) ==
            LockWallet(Job(c, dir, Some(r), Some(id)))
  {
  }

  /** The state with a resolver of row id, instance a, at a given point. */
  function WithResolver(s: Sys, a: nat, id: nat, pc: Pc): Sys {
    s.(actors := s.actors[a := Actor(Resolve(id), pc)])
  }

  lemma {:induction false} ResolverArrives(run: seq<Label>, s: Sys, a: nat, id: nat) returns (run': seq<Label>)
    requires Reaches(run, s) && a !in s.actors
    ensures Reaches(run', WithResolver(s, a, id, FindParked))
    ensures Good(run) && OnlyResolver(s.actors, a) ==> Good(run')
  {
    Extend(run, s, Arrive(a, Resolve(id)), a);
    run' := run + [Arrive(a, Resolve(id))];
  }

  /** One step of a resolver that nobody disturbs. */
  lemma {:induction false} ResolverStep(run: seq<Label>, s: Sys, a: nat, id: nat, o: Oracle, pc: Pc, pc': Pc)
    returns (run': seq<Label>)
    requires Reaches(run, WithResolver(s, a, id, pc)) && Clear(s.actors, a) && !o.blind && !pc.Commit?
    requires a in s.actors ==> s.actors[a].call == Resolve(id)
    requires Advance(s.store, Resolve(id), pc, o) == pc'
    ensures Reaches(run', WithResolver(s, a, id, pc'))
    ensures Good(run) && OnlyResolver(s.actors, a) ==> Good(run')
  {
    var t := WithResolver(s, a, id, pc);
    ReachedOk(run, t);
    ResolverMoves(s, a, id, o, pc, pc');
    Extend(run, t, Step(a, o), a);
    run' := run + [Step(a, o)];
  }

  lemma ResolverMoves(s: Sys, a: nat, id: nat, o: Oracle, pc: Pc, pc': Pc)
    requires ActorsOk(WithResolver(s, a, id, pc)) && Clear(s.actors, a) && !pc.Commit?
    requires a in s.actors ==> s.actors[a].call == Resolve(id)
    requires Advance(s.store, Resolve(id), pc, o) == pc'
    ensures Next(WithResolver(s, a, id, pc), Step(a, o)) == WithResolver(s, a, id, pc')
  {
    LocalStep(WithResolver(s, a, id, pc), a, o);
  }

  function UnitJob(c: Core, dir: Direction, r: nat, id: nat): Job {
    Job(c, dir, Some(r), Some(id))
  }

  /** A resolver of row id arrives and gets as far as the wallet lock. */
  lemma {:induction false} ReachesLock(
    run: seq<Label>, s: Sys, a: nat, id: nat, c: Core, r: nat, dir: Direction, o: Oracle)
    returns (run': seq<Label>)
    requires Reaches(run, s) && a !in s.actors && Clear(s.actors, a)
    requires Resolvable(s.store, id, c, r, dir, o)
    ensures Reaches(run', WithResolver(s, a, id, LockWallet(UnitJob(c, dir, r, id))))
    ensures Good(run) && OnlyResolver(s.actors, a) ==> Good(run')
  {
    ResolverPath(s.store, id, c, r, dir, o);
    var claim, find := Claim(s.store.rows[id]), FindReference(c, Some(id));
    var check, lock := CheckReversed(c, Some(id), r, s.store.rows[r]), LockWallet(UnitJob(c, dir, r, id));
    var r1 := ResolverArrives(run, s, a, id);
    var r2 := ResolverStep(r1, s, a, id, o, FindParked, claim);
    var r3 := ResolverStep(r2, s, a, id, o, claim, find);
    var r4 := ResolverStep(r3, s, a, id, o, find, check);
    run' := ResolverStep(r4, s, a, id, o, check, lock);
  }

  /** A call by instance b begins and ends while resolver a stands at a point where it holds its row only. */
  lemma {:induction false} CallBesideResolver(
    run: seq<Label>, s: Sys, a: nat, id: nat, pc: Pc, b: nat, call: Call, o: Oracle)
    returns (run': seq<Label>, s': Sys)
    requires Reaches(run, WithResolver(s, a, id, pc)) && HeldWallet(pc).None? && a != b && a !in s.actors
    requires b !in s.actors && call.Process? && call.key != "" && !o.blind
    requires forall d :: d in s.actors ==> s.actors[d].pc.Done?
    ensures Reaches(run', WithResolver(s', a, id, pc)) && (Good(run) ==> Good(run'))
    ensures s'.store == Solo(s.store, call, FindByKey, o).store && s'.conflicts == s.conflicts
    ensures s'.actors.Keys == s.actors.Keys + {b} && forall d :: d in s'.actors ==> s'.actors[d].pc.Done?
  {
    var t', end;
    BesideResolver(s.actors, a, Actor(Resolve(id), pc), b, Actor(call, FindByKey));
    run', t', end := CallBeside(run, WithResolver(s, a, id, pc), b, call, o, a);
    s' := t'.(actors := s.actors[b := end]);
    assert t'.actors == s'.actors[a := Actor(Resolve(id), pc)];
  }

  lemma BesideResolver(actors: map<nat, Actor>, a: nat, resolver: Actor, b: nat, other: Actor)
    requires a != b && HeldWallet(resolver.pc).None? && other.call.Process?
    requires forall d :: d in actors ==> actors[d].pc.Done?
    ensures Clear(actors[a := resolver][b := other], b) && OnlyResolver(actors[a := resolver], a)
  {
  }
}
