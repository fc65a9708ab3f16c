/** Calls that run from beginning to end with nothing in between. */
module SoloRuns {
  import opened WalletAggregate
  import opened Tables
  import opened Machine
  import opened ExternalIds
  import opened Exclusive
  import opened Termination

  datatype Outcome = Outcome(store: Store, reply: Pc)

  function SoloStep(st: Store, call: Call, pc: Pc, o: Oracle): Outcome {
    match pc
    case Commit(w, after) =>
      if Applicable(st, w) && Admits(st, w) then Outcome(Apply(st, w), Committed(st, w, after))
      else Outcome(st, Violated(w, after))
    case _ => Outcome(st, Advance(st, call, pc, o))
  }

  /** A call run to its end with nothing in between. */
  function Solo(st: Store, call: Call, pc: Pc, o: Oracle): Outcome
    decreases Rank(pc)
  {
    var next := SoloStep(st, call, pc, o);
    if Rank(next.reply) < Rank(pc) then Solo(next.store, call, next.reply, o) else Outcome(st, pc)
  }

  /** Running alone is a run of the system in which no other instance holds a lock. */
  lemma {:induction false} SoloIsRun(s: Sys, a: nat, o: Oracle) returns (labels: seq<Label>)
    requires a in s.actors
    requires forall b :: b in s.actors && b != a ==> HeldWallet(s.actors[b].pc).None? && HeldRow(s.actors[b].pc).None?
    ensures var out := Solo(s.store, s.actors[a].call, s.actors[a].pc, o);
            var s' := Exec(s, labels);
            && s'.store == out.store
            && s'.actors == s.actors[a := Actor(s.actors[a].call, out.reply)]
    decreases Rank(s.actors[a].pc)
  {
    var actor := s.actors[a];
    var next := SoloStep(s.store, actor.call, actor.pc, o);
    if Rank(next.reply) < Rank(actor.pc) {
      var s1 := Next(s, Step(a, o));
      assert !Blocked(s, a);
      assert s1.store == next.store && s1.actors == s.actors[a := Actor(actor.call, next.reply)];
      var rest := SoloIsRun(s1, a, o);
      labels := [Step(a, o)] + rest;
      ExecSplit(s, Step(a, o), rest);
    } else {
      labels := [];
      assert s.actors == s.actors[a := actor];
    }
  }

  lemma {:induction false} ExecSplit(s: Sys, l: Label, rest: seq<Label>)
    ensures Exec(s, [l] + rest) == Exec(Next(s, l), rest)
  {
    if rest == [] {
      assert ([l] + rest)[..0] == [];
      assert Exec(s, [l]) == Next(Exec(s, []), l);
    } else {
      var all := [l] + rest;
      assert all[..|all| - 1] == [l] + rest[..|rest| - 1];
      ExecSplit(s, l, rest[..|rest| - 1]);
    }
  }

  lemma SoloAdvances(st: Store, call: Call, pc: Pc, o: Oracle)
    requires !pc.Commit? && Rank(Advance(st, call, pc, o)) < Rank(pc)
    ensures Solo(st, call, pc, o) == Solo(st, call, Advance(st, call, pc, o), o)
  {
  }

  lemma SoloDone(st: Store, call: Call, reply: Reply, o: Oracle)
    ensures Solo(st, call, Done(reply), o) == Outcome(st, Done(reply))
  {
  }

  /** A commit point: the write goes through, or a constraint stops it. */
  lemma SoloCommit(st: Store, call: Call, w: Write, after: After, o: Oracle)
    requires !after.RejectNext?
    ensures Applicable(st, w) && Admits(st, w) ==>
              Solo(st, call, Commit(w, after), o) == Solo(Apply(st, w), call, Committed(st, w, after), o)
    ensures !(Applicable(st, w) && Admits(st, w)) ==>
              Solo(st, call, Commit(w, after), o) == Solo(st, call, Violated(w, after), o)
  {
    EndRank(st, w, after);
    SoloNext(st, call, Commit(w, after), o);
  }

  lemma EndRank(st: Store, w: Write, after: After)
    requires !after.RejectNext?
    ensures Committed(st, w, after).Done? || Committed(st, w, after).ReportBalance?
    ensures Rank(Violated(w, after)) < Rank(Commit(w, after))
  {
  }

  lemma SoloReport(st: Store, call: Call, pc: Pc, o: Oracle)
    requires pc.ReportBalance? || pc.Done?
    ensures Solo(st, call, pc, o) == Outcome(st, if pc.Done? then pc else Advance(st, call, pc, o))
  {
    if pc.ReportBalance? {
      SoloAdvances(st, call, pc, o);
      SoloDone(st, call, Advance(st, call, pc, o).reply, o);
    } else {
      SoloDone(st, call, pc.reply, o);
    }
  }

  /** The program point commits a write that the constraints let through. */
  lemma SoloCommits(st: Store, call: Call, w: Write, after: After, o: Oracle)
    requires Applicable(st, w) && Admits(st, w) && !after.RejectNext?
    ensures Solo(st, call, Commit(w, after), o).store == Apply(st, w)
  {
    SoloCommit(st, call, w, after, o);
    EndRank(st, w, after);
    SoloReport(Apply(st, w), call, Committed(st, w, after), o);
  }

  lemma SoloNext(st: Store, call: Call, pc: Pc, o: Oracle)
    requires Rank(SoloStep(st, call, pc, o).reply) < Rank(pc)
    ensures var next := SoloStep(st, call, pc, o); Solo(st, call, pc, o) == Solo(next.store, call, next.reply, o)
  {
  }

  /** Where a balance change stands after lock, computation and update: at its commit, or refused. */
  function AfterLock(st: Store, job: Job): Pc {
    if job.core.req.wallet !in st.wallets then OnWalletError(job, WalletNotFound)
    else
      var change := Change(st.wallets[job.core.req.wallet], job.dir, job.core.amount);
      if change.Failure? then OnWalletError(job, change.error) else Commit(MoveWrite(job, change.value), Return)
  }

  lemma SoloLock(st: Store, call: Call, job: Job, o: Oracle)
    ensures Solo(st, call, LockWallet(job), o) == Solo(st, call, AfterLock(st, job), o)
  {
    WalletStepRank(st, call, LockWallet(job), o);
    SoloAdvances(st, call, LockWallet(job), o);
    if job.core.req.wallet in st.wallets {
      var read := st.wallets[job.core.req.wallet];
      var change := Change(read, job.dir, job.core.amount);
      if change.Success? {
        SoloAdvances(st, call, Update(job, read, change.value), o);
      }
    }
  }

  // ---------------------------------------------------------------- one call after the other

  /** At most one instance exists at any time of the run, and no foreign process takes part. */
  ghost predicate Quiet(labels: seq<Label>) {
    && (forall a, b | a in Exec(INIT, labels).actors && b in Exec(INIT, labels).actors :: a == b)
    && (labels != [] ==> NoForeign(labels[|labels| - 1]) && Quiet(labels[..|labels| - 1]))
  }

  lemma {:induction false} QuietPrefix(labels: seq<Label>, k: nat)
    requires Quiet(labels) && k <= |labels|
    ensures Quiet(labels[..k])
  {
    if k == |labels| {
      assert labels[..k] == labels;
    } else {
      QuietPrefix(labels[..|labels| - 1], k);
      assert labels[..|labels| - 1][..k] == labels[..k];
    }
  }

  /** Calls made one after the other neither overlap nor repeat an external identifier. */
  lemma {:induction false} QuietRunsQualify(labels: seq<Label>)
    requires Quiet(labels)
    ensures ExclusiveRun(labels) && UniqueExternal(Exec(INIT, labels).store.rows)
  {
    forall k | 0 <= k <= |labels|
      ensures NoOverlap(Exec(INIT, labels[..k]))
    {
      QuietPrefix(labels, k);
    }
    forall k | 0 <= k < |labels|
      ensures NoForeign(labels[k]) && OneAtATime(Exec(INIT, labels[..k]))
    {
      QuietPrefix(labels, k);
      QuietPrefix(labels, k + 1);
      assert labels[..k + 1][|labels[..k + 1]| - 1] == labels[k];
    }
    SequentialCallsUnique(labels);
  }

  lemma {:induction false} Extended(labels: seq<Label>, l: Label)
    ensures Exec(INIT, labels + [l]) == Next(Exec(INIT, labels), l)
  {
    assert (labels + [l])[..|labels|] == labels;
  }

  lemma {:induction false} QuietExtended(run: seq<Label>, l: Label)
    requires Quiet(run) && NoForeign(l)
    requires forall a, b | a in Exec(INIT, run + [l]).actors && b in Exec(INIT, run + [l]).actors :: a == b
    ensures Quiet(run + [l])
  {
    assert (run + [l])[..|run|] == run;
  }

  lemma {:induction false} StepExtends(run: seq<Label>, call: Call, pc: Pc, o: Oracle)
    requires Exec(INIT, run).actors == map[0 := Actor(call, pc)]
    ensures Quiet(run) ==> Quiet(run + [Step(0, o)])
    ensures var next := SoloStep(Exec(INIT, run).store, call, pc, o);
            var s := Exec(INIT, run + [Step(0, o)]);
            s.store == next.store && s.actors == map[0 := Actor(call, next.reply)]
  {
    Extended(run, Step(0, o));
    LoneStep(Exec(INIT, run), call, pc, o);
    if Quiet(run) { QuietExtended(run, Step(0, o)); }
  }

  /** An instance that is alone is never blocked. */
  lemma LoneStep(s: Sys, call: Call, pc: Pc, o: Oracle)
    requires s.actors == map[0 := Actor(call, pc)]
    ensures var next, s' := SoloStep(s.store, call, pc, o), Next(s, Step(0, o));
            s'.store == next.store && s'.actors == map[0 := Actor(call, next.reply)]
  {
    assert !Blocked(s, 0);
  }

  /** Extend a run by the steps of its only instance, up to the end of its call. */
  lemma {:induction false} SoloExtends(run: seq<Label>, call: Call, pc: Pc, o: Oracle) returns (run': seq<Label>)
    requires Exec(INIT, run).actors == map[0 := Actor(call, pc)]
    ensures run <= run' && (Quiet(run) ==> Quiet(run'))
    ensures var out := Solo(Exec(INIT, run).store, call, pc, o);
            Exec(INIT, run').store == out.store && Exec(INIT, run').actors == map[0 := Actor(call, out.reply)]
    decreases Rank(pc)
  {
    var s := Exec(INIT, run);
    var next := SoloStep(s.store, call, pc, o);
    if Rank(next.reply) < Rank(pc) {
      StepExtends(run, call, pc, o);
      run' := SoloExtends(run + [Step(0, o)], call, next.reply, o);
    } else {
      run' := run;
    }
  }

  /** A whole call on an idle system is a run that leaves the system idle again. */
  lemma {:induction false} CallExtends(run: seq<Label>, call: Call, o: Oracle) returns (run': seq<Label>)
    requires Exec(INIT, run).actors == map[] && (call.Process? ==> call.key != "")
    ensures run <= run' && (Quiet(run) ==> Quiet(run')) && Exec(INIT, run').actors == map[]
    ensures Exec(INIT, run').store == Solo(Exec(INIT, run).store, call, EntryPoint(call), o).store
  {
    var begun := run + [Arrive(0, call)];
    Extended(run, Arrive(0, call));
    assert Exec(INIT, begun).actors == map[0 := Actor(call, EntryPoint(call))];
    if Quiet(run) { QuietExtended(run, Arrive(0, call)); }
    var ended := SoloExtends(begun, call, EntryPoint(call), o);
    run' := ended + [Crash(0)];
    Extended(ended, Crash(0));
    assert Exec(INIT, run').actors == map[];
    if Quiet(ended) { QuietExtended(ended, Crash(0)); }
  }
}
