/** Ledgers of every length: the wallets that reconciliation as written cannot handle do occur. */
module Histories {
  import opened WalletAggregate
  import opened Transactions
  import opened Tables
  import opened Machine
  import opened Invariants
  import opened SoloRuns
  import opened Deferred
  import opened Scenarios

  /** A different name for every n. */
  function Name(n: nat): (r: string)
    ensures |r| == n + 1
  {
    seq(n + 1, _ => 'n')
  }

  /** The n-th movement: WIN and BET take turns, so the balance never leaves [0, 100]. */
  function Turn(n: nat): Core {
    if n % 2 == 0 then Unit(Name(n), Name(n), "WIN", WIN, "") else Unit(Name(n), Name(n), "BET", BET, "")
  }

  lemma TurnBuilt(n: nat)
    ensures Built(Turn(n)) && TxOk(Turn(n))
  {
    if n % 2 == 0 {
      UnitBuilt(Name(n), Name(n), "WIN", WIN, "");
    } else {
      UnitBuilt(Name(n), Name(n), "BET", BET, "");
    }
  }

  predicate Named(c: Core, name: string) {
    c.key == name && c.req.externalId == name
  }

  /** The store after n movements of the wallet. */
  ghost predicate After(st: Store, n: nat) {
    && WalletHolds(st, if n % 2 == 0 then 0 else 100)
    && |st.rows| == n && |st.ledger| == n
    && (forall i :: 0 <= i < n ==> Named(st.rows[i].core, Name(i)))
    && (forall i :: 0 <= i < n ==> st.ledger[i].wallet == "w")
  }

  lemma TurnFresh(st: Store, n: nat)
    requires After(st, n)
    ensures Fresh(st.rows, Turn(n))
  {
    forall i | 0 <= i < n
      ensures st.rows[i].core.key != Turn(n).key && st.rows[i].core.req.externalId != Turn(n).req.externalId
    {
      assert Named(st.rows[i].core, Name(i));
      assert |Name(i)| != |Name(n)|;
    }
  }

  lemma OneMore(st: Store, out: Store, n: nat, dir: Direction)
    requires After(st, n) && Moved(st, out, Turn(n), dir, if n % 2 == 0 then 100 else 0)
    ensures After(out, n + 1)
  {
    assert out.rows == st.rows + [out.rows[n]] && out.ledger == st.ledger + [out.ledger[n]];
    assert Named(out.rows[n].core, Name(n));
    assert n % 2 == 0 <==> (n + 1) % 2 == 1;
  }

  lemma TurnMoves(st: Store, n: nat)
    requires After(st, n)
    ensures After(Solo(st, Process(Turn(n).req, Turn(n).key), FindByKey, O).store, n + 1)
  {
    TurnBuilt(n);
    TurnFresh(st, n);
    var out := Solo(st, Process(Turn(n).req, Turn(n).key), FindByKey, O).store;
    if n % 2 == 0 {
      SoloMoves(st, Turn(n), CREDIT, 0, O);
      OneMore(st, out, n, CREDIT);
    } else {
      SoloMoves(st, Turn(n), DEBIT, 100, O);
      OneMore(st, out, n, DEBIT);
    }
  }

  lemma {:induction false} AllEntries(ledger: seq<Entry>)
    requires forall i :: 0 <= i < |ledger| ==> ledger[i].wallet == "w"
    ensures EntriesOf(ledger, "w") == ledger
  {
    if ledger != [] {
      AllEntries(ledger[..|ledger| - 1]);
    }
  }

  lemma {:induction false} Turns(n: nat) returns (run: seq<Label>)
    ensures Quiet(run) && Exec(INIT, run).actors == map[] && After(Exec(INIT, run).store, n)
  {
    if n == 0 {
      SoloOpens();
      run := CallExtends([], Create("p", "v", ZERO), O);
    } else {
      var before := Turns(n - 1);
      TurnBuilt(n - 1);
      TurnMoves(Exec(INIT, before).store, n - 1);
      run := CallExtends(before, Process(Turn(n - 1).req, Turn(n - 1).key), O);
    }
  }

  /** For every n some run gives a wallet exactly n ledger entries. */
  lemma {:induction false} EveryLengthReached(n: nat) returns (run: seq<Label>)
    ensures "w" in Exec(INIT, run).store.wallets && |EntriesOf(Exec(INIT, run).store.ledger, "w")| == n
  {
    run := Turns(n);
    AllEntries(Exec(INIT, run).store.ledger);
  }
}
