/**
 What holds in every reachable state of every interleaving, with crashes anywhere and without any
 assumption on the calls.
 */
module EngineTheorems {
  import opened Results
  import opened MoneyValue
  import opened WalletAggregate
  import opened Transactions
  import opened Tables
  import opened Machine
  import opened Invariants
  import opened StoreProofs
  import opened SystemProofs
  import opened Runs

  // ---------------------------------------------------------------- serial equivalence

  /** The whole store equals that of the committed transactions executed one at a time in commit order. */
  lemma {:induction false} SerialEquivalence(labels: seq<Label>)
    ensures Exec(INIT, labels).store == Serial(Exec(INIT, labels).log)
  {
    ReachableInv(labels);
  }

  ghost predicate ChainIntact(es: seq<Entry>) {
    && (forall k :: 0 < k < |es| ==> es[k].before == es[k - 1].after)
    && (forall k :: 0 <= k < |es| ==>
         es[k].after.amount as int == es[k].before.amount as int + Signed(es[k].dir, es[k].amount))
  }

  lemma ChainedIntact(es: seq<Entry>)
    requires Chained(es)
    ensures ChainIntact(es)
    ensures es != [] ==> es[0].before == Money(0, BRL)
  {
    forall k | 0 <= k < |es|
      ensures es[k].after.amount as int == es[k].before.amount as int + Signed(es[k].dir, es[k].amount)
      ensures k > 0 ==> es[k].before == es[k - 1].after
    {
      assert Linked(es, k);
      if k > 0 { assert Linked(es, k - 1); }
    }
    if es != [] { assert Linked(es, 0); }
  }

  lemma ChainOf(st: Store, wallet: string)
    requires BookOk(st, wallet) && WalletsOk(st.wallets)
    ensures var es := EntriesOf(st.ledger, wallet);
            && ChainIntact(es)
            && (es != [] ==> es[0].before == Money(0, BRL))
            && (es != [] ==> wallet in st.wallets && st.wallets[wallet].balance == es[|es| - 1].after)
  {
    var es := EntriesOf(st.ledger, wallet);
    if wallet in st.wallets {
      assert WalletRowOk(st.wallets[wallet]);
      ChainedIntact(es);
      if es != [] { assert Linked(es, |es| - 1); }
    }
  }

  /** Consecutive entries of a wallet chain: no committed balance change is lost or applied to a stale balance. */
  lemma {:induction false} LedgerChains(labels: seq<Label>, wallet: string)
    ensures var st := Exec(INIT, labels).store;
            var es := EntriesOf(st.ledger, wallet);
            && ChainIntact(es)
            && (es != [] ==> es[0].before == Money(0, BRL))
            && (es != [] ==> wallet in st.wallets && st.wallets[wallet].balance == es[|es| - 1].after)
  {
    ReachableInv(labels);
    assert BooksOk(Exec(INIT, labels).store);
    ChainOf(Exec(INIT, labels).store, wallet);
  }

  // ---------------------------------------------------------------- conservation

  /** SumByWalletID: the credits of a wallet, and its debits, over exact integers. */
  function SumOf(ledger: seq<Entry>, wallet: string, dir: Direction): int {
    if ledger == [] then 0
    else
      var last := ledger[|ledger| - 1];
      SumOf(ledger[..|ledger| - 1], wallet, dir) +
      if last.wallet == wallet && last.dir == dir then last.amount.amount as int else 0
  }

  function NetOf(es: seq<Entry>): int {
    if es == [] then 0 else NetOf(es[..|es| - 1]) + Signed(es[|es| - 1].dir, es[|es| - 1].amount)
  }

  lemma {:induction false} SumIsNet(ledger: seq<Entry>, wallet: string)
    ensures SumOf(ledger, wallet, CREDIT) - SumOf(ledger, wallet, DEBIT) == NetOf(EntriesOf(ledger, wallet))
  {
    if ledger != [] {
      var front, last := ledger[..|ledger| - 1], ledger[|ledger| - 1];
      SumIsNet(front, wallet);
      var es := EntriesOf(front, wallet);
      if last.wallet == wallet {
        assert (es + [last])[..|es|] == es;
      } else {
        assert EntriesOf(ledger, wallet) == es;
      }
    }
  }

  lemma {:induction false} NetTelescopes(es: seq<Entry>)
    requires Chained(es)
    ensures NetOf(es) == ClosingBalance(es)
  {
    if es != [] {
      var front := es[..|es| - 1];
      assert forall k :: 0 <= k < |front| ==> Linked(es, k) ==> Linked(front, k);
      NetTelescopes(front);
      assert Linked(es, |es| - 1);
    }
  }

  /** How many entries of a wallet are not its opening. */
  function Movements(rows: seq<Row>, es: seq<Entry>): nat {
    if es == [] then 0
    else
      var last := es[|es| - 1];
      Movements(rows, es[..|es| - 1]) + if last.tx < |rows| && rows[last.tx].core.kind == OPENING then 0 else 1
  }

  lemma {:induction false} MovementsCounted(rows: seq<Row>, es: seq<Entry>)
    requires OpeningFirst(rows, es)
    ensures Movements(rows, es) == |es| - if Opened(rows, es) then 1 else 0
  {
    if |es| > 1 {
      var front := es[..|es| - 1];
      MovementsCounted(rows, front);
    }
  }

  /**
   Every wallet balance equals its ledger credits minus its debits and fits in 63 bits, and its version is
   one more than the number of its entries that are not an opening.
   */
  lemma {:induction false} Conservation(labels: seq<Label>, wallet: string)
    ensures var st := Exec(INIT, labels).store;
            wallet in st.wallets ==>
              && st.wallets[wallet].balance.amount as int ==
                   SumOf(st.ledger, wallet, CREDIT) - SumOf(st.ledger, wallet, DEBIT)
              && 0 <= st.wallets[wallet].balance.amount <= MAX_INT64
              && st.wallets[wallet].version == 1 + Movements(st.rows, EntriesOf(st.ledger, wallet))
  {
    ReachableInv(labels);
    if wallet in Exec(INIT, labels).store.wallets {
      ConservationOf(Exec(INIT, labels).store, wallet);
    }
  }

  lemma ConservationOf(st: Store, wallet: string)
    requires StoreOk(st) && wallet in st.wallets
    ensures st.wallets[wallet].balance.amount as int ==
              SumOf(st.ledger, wallet, CREDIT) - SumOf(st.ledger, wallet, DEBIT)
    ensures 0 <= st.wallets[wallet].balance.amount
    ensures st.wallets[wallet].version == 1 + Movements(st.rows, EntriesOf(st.ledger, wallet))
  {
    assert BookOk(st, wallet) && WalletRowOk(st.wallets[wallet]);
    SumIsNet(st.ledger, wallet);
    NetTelescopes(EntriesOf(st.ledger, wallet));
    MovementsCounted(st.rows, EntriesOf(st.ledger, wallet));
  }

  // ---------------------------------------------------------------- constraints that are not guards

  lemma ChainedMath(es: seq<Entry>, e: Entry)
    requires Chained(es) && e in es
    ensures EntryMath(e)
  {
    var i :| 0 <= i < |es| && es[i] == e;
    assert Linked(es, i);
  }

  lemma {:induction false} InEntriesOf(ledger: seq<Entry>, k: nat)
    requires k < |ledger|
    ensures ledger[k] in EntriesOf(ledger, ledger[k].wallet)
  {
    if k < |ledger| - 1 {
      InEntriesOf(ledger[..|ledger| - 1], k);
    }
  }

  lemma EntryExact(st: Store, k: nat)
    requires BooksOk(st) && k < |st.ledger|
    ensures EntryMath(st.ledger[k])
  {
    InEntriesOf(st.ledger, k);
    assert BookOk(st, st.ledger[k].wallet);
    ChainedMath(EntriesOf(st.ledger, st.ledger[k].wallet), st.ledger[k]);
  }

  ghost predicate OneOpeningEach(rows: seq<Row>) {
    forall i, j | 0 <= i < |rows| && 0 <= j < |rows| && rows[i].core.kind == rows[j].core.kind == OPENING
      && rows[i].core.req.wallet == rows[j].core.req.wallet :: i == j
  }

  lemma WriteKeepsOpenings(st: Store, w: Write)
    requires WalletsExist(st) && OneOpeningEach(st.rows) && WriteOk(st, w) && Applicable(st, w) && Admits(st, w)
    ensures OneOpeningEach(Apply(st, w).rows)
  {
    ApplyRows(st, w);
  }

  lemma {:induction false} ReachableOpenings(labels: seq<Label>)
    ensures OneOpeningEach(Exec(INIT, labels).store.rows)
  {
    if labels != [] {
      var front, l := labels[..|labels| - 1], labels[|labels| - 1];
      ReachableOpenings(front);
      ReachableInv(front);
      var s := Exec(INIT, front);
      NextByWrite(s, l);
      if Next(s, l).store != s.store {
        var w :| WriteOk(s.store, w) && Applicable(s.store, w) && Admits(s.store, w)
          && Next(s, l).store == Apply(s.store, w);
        WriteKeepsOpenings(s.store, w);
      }
    }
  }

  /**
   The remaining table constraints never refuse a write: entries are positive and arithmetically exact, no wallet has
   two entries of one transaction, no wallet has two openings, and amounts are nonnegative.
   */
  lemma {:induction false} ChecksNeverFire(labels: seq<Label>)
    ensures var st := Exec(INIT, labels).store;
            && (forall k :: 0 <= k < |st.ledger| ==> EntryMath(st.ledger[k]))
            && (forall i, j :: 0 <= i < j < |st.ledger| ==> st.ledger[i].tx != st.ledger[j].tx)
            && OneOpeningEach(st.rows)
            && (forall i :: 0 <= i < |st.rows| ==> Presentable(st.rows[i].core.amount))
  {
    ReachableInv(labels);
    ReachableOpenings(labels);
    var st := Exec(INIT, labels).store;
    forall k | 0 <= k < |st.ledger|
      ensures EntryMath(st.ledger[k])
    {
      EntryExact(st, k);
    }
    forall i | 0 <= i < |st.rows|
      ensures Presentable(st.rows[i].core.amount)
    {
      assert RowOk(st.rows, st.rows[i]);
    }
  }

  // ---------------------------------------------------------------- balance events

  /** The balance that a consumer of WalletBalanceChanged events arrives at. */
  function Rebuilt(evs: seq<Event>): int
    requires forall k :: 0 <= k < |evs| ==> evs[k].BalanceChanged?
  {
    if evs == [] then 0 else Rebuilt(evs[..|evs| - 1]) + Signed(evs[|evs| - 1].dir, evs[|evs| - 1].money)
  }

  lemma {:induction false} RebuiltIsNet(evs: seq<Event>, es: seq<Entry>, base: nat)
    requires Mirrored(evs, es, base)
    ensures forall k :: 0 <= k < |evs| ==> evs[k].BalanceChanged?
    ensures Rebuilt(evs) == NetOf(es)
  {
    assert forall k :: 0 <= k < |evs| ==> Mirrors(evs[k], es[k], base + k);
    if es != [] {
      RebuiltIsNet(evs[..|evs| - 1], es[..|es| - 1], base);
    }
  }

  /**
   The balance events of a wallet carry the versions from 2 (from 1, if it was opened with money) up to the
   stored version, each once and in order, and replaying them gives the stored balance.
   */
  lemma {:induction false} BalanceEventsComplete(labels: seq<Label>, wallet: string)
    ensures var st := Exec(INIT, labels).store;
            var evs := BalanceEvents(st.outbox, wallet);
            wallet in st.wallets ==>
              var first := FirstVersion(st.rows, EntriesOf(st.ledger, wallet));
              && |evs| == st.wallets[wallet].version + 1 - first
              && (forall k :: 0 <= k < |evs| ==> evs[k].version == first + k)
              && Rebuilt(evs) == st.wallets[wallet].balance.amount as int
  {
    ReachableInv(labels);
    var st := Exec(INIT, labels).store;
    if wallet in st.wallets {
      assert BookOk(st, wallet);
      var es, evs := EntriesOf(st.ledger, wallet), BalanceEvents(st.outbox, wallet);
      RebuiltIsNet(evs, es, FirstVersion(st.rows, es));
      NetTelescopes(es);
      assert forall k :: 0 <= k < |evs| ==> Mirrors(evs[k], es[k], FirstVersion(st.rows, es) + k);
    }
  }

  /** Every amount in every event is a nonnegative BRL amount, so encoding an event never fails. */
  lemma {:induction false} EventsEncodable(labels: seq<Label>)
    ensures var evs := Exec(INIT, labels).store.outbox;
            forall k, m | 0 <= k < |evs| && m in EventMonies(evs[k]) ::
              Presentable(m) && Parse(Text(m), m.currency) == Success(m)
  {
    ReachableInv(labels);
    var evs := Exec(INIT, labels).store.outbox;
    forall k, m | 0 <= k < |evs| && m in EventMonies(evs[k])
      ensures Presentable(m) && Parse(Text(m), m.currency) == Success(m)
    {
      assert EventOk(evs[k]);
      ParseText(m);
    }
  }

  // ---------------------------------------------------------------- at most once

  /** At most one PROCESSED reversal points at a row, although the check for one may be stale or fail. */
  lemma {:induction false} SingleReversal(labels: seq<Label>, i: nat, j: nat, ref: nat)
    requires var rows := Exec(INIT, labels).store.rows;
             i < |rows| && j < |rows| && Reverses(rows[i], ref) && Reverses(rows[j], ref)
    ensures i == j
  {
    ReachableInv(labels);
  }

  /** At most one row per key, whatever its status, however often a call is delivered. */
  lemma {:induction false} OneRowPerKey(labels: seq<Label>, provider: string, key: string, i: nat, j: nat)
    requires var rows := Exec(INIT, labels).store.rows;
             i < |rows| && j < |rows| && HasKey(rows[i].core, provider, key) && HasKey(rows[j].core, provider, key)
    ensures i == j
  {
    ReachableInv(labels);
    var rows := Exec(INIT, labels).store.rows;
    assert SameKey(rows[i].core, rows[j].core);
  }

  /** At most one ledger entry for the row of a key, however often a call is delivered or a parked row resolved. */
  lemma {:induction false} EffectAtMostOnce(labels: seq<Label>, provider: string, key: string, i: nat, j: nat,
    m: nat, n: nat)
    requires var st := Exec(INIT, labels).store;
             && i < |st.rows| && j < |st.rows|
             && HasKey(st.rows[i].core, provider, key) && HasKey(st.rows[j].core, provider, key)
             && m < |st.ledger| && n < |st.ledger| && st.ledger[m].tx == i && st.ledger[n].tx == j
    ensures i == j && m == n
  {
    ReachableInv(labels);
    var st := Exec(INIT, labels).store;
    assert SameKey(st.rows[i].core, st.rows[j].core);
  }

  /** The row with a given key in some state of a run is the row with that key in every later state. */
  lemma {:induction false} KeyKeepsRow(s: Sys, later: seq<Label>, provider: string, key: string, i: nat, j: nat)
    requires Inv(s)
    requires i < |s.store.rows| && HasKey(s.store.rows[i].core, provider, key)
    requires j < |Exec(s, later).store.rows| && HasKey(Exec(s, later).store.rows[j].core, provider, key)
    ensures i == j
  {
    ExecKeepsInv(s, later);
    ExecEvolves(s, later);
    var rows' := Exec(s, later).store.rows;
    assert SameKey(rows'[i].core, rows'[j].core);
  }

  /** Two calls with the same provider and key, at any two times of a run, never report different rows. */
  lemma {:induction false} RepliesAgree(labels: seq<Label>, later: seq<Label>, a: nat, b: nat)
    requires var s, s' := Exec(INIT, labels), Exec(Exec(INIT, labels), later);
             && a in s.actors && b in s'.actors
             && s.actors[a].call.Process? && s'.actors[b].call.Process?
             && s.actors[a].call.req.provider == s'.actors[b].call.req.provider
             && s.actors[a].call.key == s'.actors[b].call.key
             && s.actors[a].pc.Done? && s.actors[a].pc.reply.Answer?
             && s'.actors[b].pc.Done? && s'.actors[b].pc.reply.Answer?
    ensures Exec(INIT, labels).actors[a].pc.reply.id == Exec(Exec(INIT, labels), later).actors[b].pc.reply.id
  {
    ReachableInv(labels);
    var s, s' := Exec(INIT, labels), Exec(Exec(INIT, labels), later);
    ExecKeepsInv(s, later);
    assert PcOk(s.store, s.actors[a].call, s.actors[a].pc);
    assert PcOk(s'.store, s'.actors[b].call, s'.actors[b].pc);
    KeyKeepsRow(s, later, s.actors[a].call.req.provider, s.actors[a].call.key,
                s.actors[a].pc.reply.id, s'.actors[b].pc.reply.id);
  }

  // ---------------------------------------------------------------- the version test

  /** UpdateBalanceTx always finds the version read under the lock, and the reported version is the one stored. */
  lemma {:induction false} VersionTestNeverFails(labels: seq<Label>, a: nat, o: Oracle)
    requires var s := Exec(INIT, labels); a in s.actors && s.actors[a].pc.Update?
    ensures var s := Exec(INIT, labels);
            var pc := s.actors[a].pc;
            && VersionTest(s.store, pc.job, pc.read)
            && Advance(s.store, s.actors[a].call, pc, o) == Commit(MoveWrite(pc.job, pc.change), Return)
            && pc.change.version == s.store.wallets[pc.job.core.req.wallet].version + 1
  {
    ReachableInv(labels);
    var s := Exec(INIT, labels);
    assert PcOk(s.store, s.actors[a].call, s.actors[a].pc);
    assert WalletRowOk(s.actors[a].pc.read);
  }

  /** When a balance change commits, the wallet row gets exactly the balance and version that were reported. */
  lemma {:induction false} CommitStoresReportedVersion(labels: seq<Label>, a: nat, o: Oracle)
    requires var s := Exec(INIT, labels);
             && a in s.actors && !Blocked(s, a) && s.actors[a].pc.Commit? && MoveOf(s.actors[a].pc.write).Some?
             && Admits(s.store, s.actors[a].pc.write)
    ensures var s := Exec(INIT, labels);
            var mv, s' := MoveOf(s.actors[a].pc.write).value, Next(s, Step(a, o));
            && mv.wallet in s'.store.wallets
            && s'.store.wallets[mv.wallet].version == mv.change.version
            && s'.store.wallets[mv.wallet].balance == mv.change.after
  {
    ReachableInv(labels);
    var s := Exec(INIT, labels);
    assert PcOk(s.store, s.actors[a].call, s.actors[a].pc);
    WriteOkApplicable(s.store, s.actors[a].pc.write);
    ApplyStoresMove(s.store, s.actors[a].pc.write);
  }

  lemma ApplyStoresMove(st: Store, w: Write)
    requires WriteOk(st, w) && Applicable(st, w) && MoveOf(w).Some? && WalletsOk(st.wallets)
    ensures var mv, st' := MoveOf(w).value, Apply(st, w);
            && mv.wallet in st'.wallets
            && st'.wallets[mv.wallet].version == mv.change.version
            && st'.wallets[mv.wallet].balance == mv.change.after
  {
    MoveFacts(st, w);
    MoveEntryMath(st.wallets[MoveOf(w).value.wallet], 0, MoveOf(w).value);
  }

  // ---------------------------------------------------------------- stable replay

  /** Instance c is about to look up its key, for a call with the given request and key. */
  predicate LooksUp(s: Sys, c: nat, req: Request, key: string) {
    c in s.actors && s.actors[c] == Actor(Process(req, key), FindByKey)
  }

  /** The step leaves the tables alone and ends the call with that reply. */
  predicate RepliedBy(s: Sys, s': Sys, c: nat, reply: Reply) {
    s'.store == s.store && c in s'.actors && s'.actors[c].pc == Done(reply)
  }

  /**
   Once a result balance is recorded with a row, the same provider, key and payload get that row's id, status and
   balance in every later state, and the tables stay as they are; whoever wrote the row may have crashed before
   replying.
   */
  lemma {:induction false} RecordedReplay(labels: seq<Label>, later: seq<Label>, key: string, i: nat, c: nat, o: Oracle)
    requires i < |Exec(INIT, labels).store.rows|
    ensures var row, s := Exec(INIT, labels).store.rows[i], Exec(Exec(INIT, labels), later);
            row.core.result.Some? && HasKey(row.core, row.core.req.provider, key)
              && LooksUp(s, c, row.core.req, key) ==>
              RepliedBy(s, Next(s, Step(c, o)), c, Answer(i, row.state.status, row.core.result, true))
  {
    ReachableInv(labels);
    var row, s := Exec(INIT, labels).store.rows[i], Exec(Exec(INIT, labels), later);
    if row.core.result.Some? && HasKey(row.core, row.core.req.provider, key) && LooksUp(s, c, row.core.req, key) {
      ExecKeepsInv(Exec(INIT, labels), later);
      ExecEvolves(Exec(INIT, labels), later);
      FirstStep(s, c, row.core.req, key, o, i);
    }
  }

  /** The call ended PROCESSED on its own account, and it was not a LOSS. */
  predicate AnsweredProcessed(actor: Actor) {
    && actor.call.Process? && actor.call.req.kind != "LOSS"
    && actor.pc.Done? && actor.pc.reply.Answer? && actor.pc.reply.status == PROCESSED && !actor.pc.reply.replay
  }

  lemma AnswerRecorded(st: Store, actor: Actor)
    requires RowsOk(st.rows) && PcOk(st, actor.call, actor.pc) && AnsweredProcessed(actor)
    ensures var reply := actor.pc.reply;
            && reply.id < |st.rows| && Records(st.rows[reply.id], actor.call.req, reply)
            && HasKey(st.rows[reply.id].core, actor.call.req.provider, actor.call.key)
  {
    assert RowOk(st.rows, st.rows[actor.pc.reply.id]);
  }

  /**
   The answer that a BET, WIN, REFUND or ROLLBACK was given as PROCESSED is the answer that every repetition of the call
   gets, whatever happens in between, and the tables stay as they are.
   */
  lemma {:induction false} StableReplay(labels: seq<Label>, later: seq<Label>, a: nat, c: nat, o: Oracle)
    ensures var s, s' := Exec(INIT, labels), Exec(Exec(INIT, labels), later);
            a in s.actors && AnsweredProcessed(s.actors[a])
              && LooksUp(s', c, s.actors[a].call.req, s.actors[a].call.key) ==>
              RepliedBy(s', Next(s', Step(c, o)), c, s.actors[a].pc.reply.(replay := true))
  {
    ReachableInv(labels);
    var s, s' := Exec(INIT, labels), Exec(Exec(INIT, labels), later);
    if a in s.actors && AnsweredProcessed(s.actors[a]) && LooksUp(s', c, s.actors[a].call.req, s.actors[a].call.key) {
      assert PcOk(s.store, s.actors[a].call, s.actors[a].pc);
      AnswerRecorded(s.store, s.actors[a]);
      RecordedReplay(labels, later, s.actors[a].call.key, s.actors[a].pc.reply.id, c, o);
    }
  }

  /** Under a key that is taken, a call with another payload is refused and the tables stay as they are. */
  lemma {:induction false} PayloadConflictRefused(labels: seq<Label>, req: Request, key: string, i: nat, c: nat,
    o: Oracle)
    requires i < |Exec(INIT, labels).store.rows|
    ensures var s := Exec(INIT, labels);
            HasKey(s.store.rows[i].core, req.provider, key) && s.store.rows[i].core.req != req
              && LooksUp(s, c, req, key) ==>
              RepliedBy(s, Next(s, Step(c, o)), c, Refused(PayloadConflict))
  {
    ReachableInv(labels);
    var s := Exec(INIT, labels);
    if HasKey(s.store.rows[i].core, req.provider, key) && LooksUp(s, c, req, key) {
      FirstStep(s, c, req, key, o, i);
    }
  }

  lemma FirstStep(s: Sys, c: nat, req: Request, key: string, o: Oracle, i: nat)
    requires KeysUnique(s.store.rows) && LooksUp(s, c, req, key)
    requires i < |s.store.rows| && HasKey(s.store.rows[i].core, req.provider, key)
    ensures var t := Next(s, Step(c, o));
            && t.store == s.store
            && c in t.actors
            && t.actors[c].pc == if s.store.rows[i].core.req != req then Done(Refused(PayloadConflict))
                                 else Replay(i, s.store.rows[i])
  {
    var found := FindKey(s.store.rows, req.provider, key);
    assert SameKey(s.store.rows[i].core, s.store.rows[found.value].core);
    assert !Blocked(s, c);
  }

  // ---------------------------------------------------------------- parked references

  /** The reference of a parked row is always found, so the resolver never takes its not-found branch. */
  lemma {:induction false} ParkedReferenceFound(labels: seq<Label>, a: nat, o: Oracle)
    ensures var s := Exec(INIT, labels);
            a in s.actors && s.actors[a].pc.FindReference? && s.actors[a].pc.parked.Some? ==>
              var pc := s.actors[a].pc;
              && FindExternal(s.store.rows, pc.core.req.provider, pc.core.req.reference, o.pick).Some?
              && Advance(s.store, s.actors[a].call, pc, o) != Commit(Wait(pc.parked.value), RejectNext)
  {
    ReachableInv(labels);
    var s := Exec(INIT, labels);
    if a in s.actors && s.actors[a].pc.FindReference? && s.actors[a].pc.parked.Some? {
      assert PcOk(s.store, s.actors[a].call, s.actors[a].pc);
      assert RowOk(s.store.rows, s.store.rows[s.actors[a].pc.parked.value]);
    }
  }
}
