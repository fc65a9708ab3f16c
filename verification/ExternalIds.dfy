/** When (provider, external id) is unique, although no index enforces it. */
module ExternalIds {
  import opened Results
  import opened Transactions
  import opened Tables
  import opened Machine
  import opened Invariants
  import opened StoreProofs
  import opened SystemProofs

  predicate SameExternal(c: Core, d: Core) {
    HasExternal(c, d.req.provider, d.req.externalId)
  }

  ghost predicate UniqueExternal(rows: seq<Row>) {
    forall i, j | 0 <= i < |rows| && 0 <= j < |rows| && SameExternal(rows[i].core, rows[j].core) :: i == j
  }

  // ---------------------------------------------------------------- where rows come from

  /** A call for the request under the key arrived during the run. */
  ghost predicate Arrived(labels: seq<Label>, req: Request, key: string) {
    exists k :: 0 <= k < |labels| && labels[k].Arrive? && labels[k].call == Process(req, key)
  }

  ghost predicate ForeignSent(labels: seq<Label>, req: Request, key: string) {
    exists k :: 0 <= k < |labels| && labels[k].ForeignPending? && labels[k].core.req == req && labels[k].core.key == key
  }

  /** The run may store a row for the request under the key: it passes all checks, or a foreign process sent it. */
  ghost predicate Delivered(labels: seq<Label>, req: Request, key: string) {
    (Arrived(labels, req, key) && Prepare(req, key).Success?) || ForeignSent(labels, req, key)
  }

  ghost predicate RowsDelivered(labels: seq<Label>, rows: seq<Row>) {
    forall i :: 0 <= i < |rows| && rows[i].core.kind != OPENING ==>
      Delivered(labels, rows[i].core.req, rows[i].core.key)
  }

  /** The point is before the request checks, or behind the call's own work. */
  predicate Idle(pc: Pc) {
    || pc.FindByKey? || pc.CheckExternal? || pc.FindDuplicate? || pc.ReplayBalance? || pc.ReportBalance? || pc.Done?
  }

  ghost predicate CallDelivered(labels: seq<Label>, call: Call, pc: Pc) {
    call.Process? ==> Arrived(labels, call.req, call.key) && (!Idle(pc) ==> Prepare(call.req, call.key).Success?)
  }

  ghost predicate CallsDelivered(labels: seq<Label>, actors: map<nat, Actor>) {
    forall a :: a in actors ==> CallDelivered(labels, actors[a].call, actors[a].pc)
  }

  lemma {:induction false} DeliveredLonger(labels: seq<Label>, l: Label, req: Request, key: string)
    ensures Arrived(labels, req, key) ==> Arrived(labels + [l], req, key)
    ensures Delivered(labels, req, key) ==> Delivered(labels + [l], req, key)
  {
    var longer := labels + [l];
    if Arrived(labels, req, key) {
      var k :| 0 <= k < |labels| && labels[k].Arrive? && labels[k].call == Process(req, key);
      assert longer[k] == labels[k];
    }
    if ForeignSent(labels, req, key) {
      var k :| 0 <= k < |labels| && labels[k].ForeignPending? && labels[k].core.req == req && labels[k].core.key == key;
      assert longer[k] == labels[k];
    }
  }

  lemma {:induction false} AllDeliveredLonger(labels: seq<Label>, l: Label, rows: seq<Row>, actors: map<nat, Actor>)
    requires RowsDelivered(labels, rows) && CallsDelivered(labels, actors)
    ensures RowsDelivered(labels + [l], rows) && CallsDelivered(labels + [l], actors)
  {
    forall i | 0 <= i < |rows| && rows[i].core.kind != OPENING
      ensures Delivered(labels + [l], rows[i].core.req, rows[i].core.key)
    {
      DeliveredLonger(labels, l, rows[i].core.req, rows[i].core.key);
    }
    forall a | a in actors
      ensures CallDelivered(labels + [l], actors[a].call, actors[a].pc)
    {
      if actors[a].call.Process? { DeliveredLonger(labels, l, actors[a].call.req, actors[a].call.key); }
    }
  }

  // ---------------------------------------------------------------- steps

  lemma InsertBelongs(st: Store, call: Call, pc: Pc)
    requires pc.Commit? && PcOk(st, call, pc)
    ensures pc.write.Insert? ==> call == Process(pc.write.row.core.req, pc.write.row.core.key)
  {
  }

  lemma {:induction false} WriteKeepsDelivered(labels: seq<Label>, st: Store, w: Write)
    requires RowsDelivered(labels, st.rows) && Applicable(st, w)
    requires w.Insert? ==> Delivered(labels, w.row.core.req, w.row.core.key)
    ensures RowsDelivered(labels, Apply(st, w).rows)
  {
    ApplyRows(st, w);
  }

  lemma DispatchPrepared(req: Request, key: string)
    ensures !Idle(Dispatch(req, key)) ==> Prepare(req, key).Success?
  {
  }

  /** A call works only after its request has passed the checks. */
  lemma AdvancePrepared(st: Store, call: Call, pc: Pc, o: Oracle)
    requires PcOk(st, call, pc) && call.Process? && (!Idle(pc) ==> Prepare(call.req, call.key).Success?)
    ensures !Idle(Advance(st, call, pc, o)) ==> Prepare(call.req, call.key).Success?
  {
    if pc.CheckExternal? {
      DispatchPrepared(call.req, call.key);
    }
  }

  lemma {:induction false} LocalStepDelivers(labels: seq<Label>, s: Sys, a: nat, o: Oracle)
    requires ActorsOk(s) && CallsDelivered(labels, s.actors) && a in s.actors && !s.actors[a].pc.Commit?
    ensures CallsDelivered(labels, ActorStep(s, a, o).actors)
  {
    var actor := s.actors[a];
    assert PcOk(s.store, actor.call, actor.pc) && CallDelivered(labels, actor.call, actor.pc);
    if actor.call.Process? {
      AdvancePrepared(s.store, actor.call, actor.pc, o);
    }
  }

  lemma {:induction false} CommitDelivers(labels: seq<Label>, s: Sys, a: nat, o: Oracle)
    requires ActorsOk(s) && RowsDelivered(labels, s.store.rows) && CallsDelivered(labels, s.actors)
    requires a in s.actors && s.actors[a].pc.Commit?
    ensures RowsDelivered(labels, ActorStep(s, a, o).store.rows)
    ensures CallsDelivered(labels, ActorStep(s, a, o).actors)
  {
    CommitDeliversRows(labels, s, a, o);
    CommitDeliversCalls(labels, s, a, o);
  }

  lemma {:induction false} CommitDeliversRows(labels: seq<Label>, s: Sys, a: nat, o: Oracle)
    requires ActorsOk(s) && RowsDelivered(labels, s.store.rows) && CallsDelivered(labels, s.actors)
    requires a in s.actors && s.actors[a].pc.Commit?
    ensures RowsDelivered(labels, ActorStep(s, a, o).store.rows)
  {
    var actor := s.actors[a];
    assert PcOk(s.store, actor.call, actor.pc) && CallDelivered(labels, actor.call, actor.pc);
    InsertBelongs(s.store, actor.call, actor.pc);
    if Applicable(s.store, actor.pc.write) {
      WriteKeepsDelivered(labels, s.store, actor.pc.write);
    }
  }

  /** Whoever commits has passed the checks already. */
  lemma {:induction false} CommitDeliversCalls(labels: seq<Label>, s: Sys, a: nat, o: Oracle)
    requires CallsDelivered(labels, s.actors) && a in s.actors && s.actors[a].pc.Commit?
    ensures CallsDelivered(labels, ActorStep(s, a, o).actors)
  {
    var s' := ActorStep(s, a, o);
    forall b | b in s'.actors
      ensures CallDelivered(labels, s'.actors[b].call, s'.actors[b].pc)
    {
      assert CallDelivered(labels, s.actors[b].call, s.actors[b].pc);
    }
  }

  lemma {:induction false} StepDelivers(labels: seq<Label>, s: Sys, a: nat, o: Oracle)
    requires ActorsOk(s) && RowsDelivered(labels, s.store.rows) && CallsDelivered(labels, s.actors) && a in s.actors
    ensures RowsDelivered(labels, ActorStep(s, a, o).store.rows)
    ensures CallsDelivered(labels, ActorStep(s, a, o).actors)
  {
    if s.actors[a].pc.Commit? {
      CommitDelivers(labels, s, a, o);
    } else {
      LocalStepDelivers(labels, s, a, o);
    }
  }

  lemma {:induction false} ForeignDelivers(labels: seq<Label>, s: Sys, w: Write)
    requires RowsDelivered(labels, s.store.rows) && CallsDelivered(labels, s.actors)
    requires w.Insert? ==> Delivered(labels, w.row.core.req, w.row.core.key)
    ensures RowsDelivered(labels, ForeignStep(s, w).store.rows) && CallsDelivered(labels, ForeignStep(s, w).actors)
  {
    if Applicable(s.store, w) {
      WriteKeepsDelivered(labels, s.store, w);
    }
  }

  /** The labels so far include l, the one that is taken next. */
  lemma {:induction false} NextDelivers(labels: seq<Label>, s: Sys, l: Label)
    requires ActorsOk(s) && RowsDelivered(labels, s.store.rows) && CallsDelivered(labels, s.actors)
    requires labels != [] && labels[|labels| - 1] == l
    ensures RowsDelivered(labels, Next(s, l).store.rows) && CallsDelivered(labels, Next(s, l).actors)
  {
    match l {
      case Arrive(a, call) => assert call.Process? ==> Arrived(labels, call.req, call.key);
      case Step(a, o) => if a in s.actors { StepDelivers(labels, s, a, o); }
      case ForeignPending(core) =>
        assert ForeignSent(labels, core.req, core.key);
        ForeignDelivers(labels, s, Insert(RowOf(core, PENDING, NO_FAILURE, None), None));
      case ForeignSettle(id, status) =>
        if id < |s.store.rows| && ForeignWrite(s.store, id, status).Some? {
          ForeignDelivers(labels, s, ForeignWrite(s.store, id, status).value);
        }
      case Crash(a) =>
    }
  }

  /** Every row but an opening was delivered during the run. */
  lemma {:induction false} ReachableDelivered(labels: seq<Label>)
    ensures RowsDelivered(labels, Exec(INIT, labels).store.rows) && CallsDelivered(labels, Exec(INIT, labels).actors)
  {
    if labels != [] {
      var front, l := labels[..|labels| - 1], labels[|labels| - 1];
      var s := Exec(INIT, front);
      ReachableDelivered(front);
      ReachableInv(front);
      AllDeliveredLonger(front, l, s.store.rows, s.actors);
      assert front + [l] == labels;
      NextDelivers(labels, s, l);
    }
  }

  // ---------------------------------------------------------------- one key per external identifier

  predicate SharePair(r: Request, q: Request) {
    r.provider != "" && r.externalId != "" && r.provider == q.provider && r.externalId == q.externalId
  }

  /** Whatever may be stored under one (provider, external id) comes under one key. */
  ghost predicate KeysAgree(labels: seq<Label>) {
    forall r, k, q, m | Delivered(labels, r, k) && Delivered(labels, q, m) && SharePair(r, q) :: k == m
  }

  /** With one key per external identifier the idempotency index makes external identifiers unique. */
  lemma {:induction false} AgreeingKeysUnique(labels: seq<Label>)
    requires KeysAgree(labels)
    ensures UniqueExternal(Exec(INIT, labels).store.rows)
  {
    ReachableInv(labels);
    ReachableDelivered(labels);
    var rows := Exec(INIT, labels).store.rows;
    forall i, j | 0 <= i < |rows| && 0 <= j < |rows| && SameExternal(rows[i].core, rows[j].core)
      ensures i == j
    {
      SameExternalSameKey(labels, rows, i, j);
    }
  }

  lemma {:induction false} SameExternalSameKey(labels: seq<Label>, rows: seq<Row>, i: nat, j: nat)
    requires RowsOk(rows) && KeysUnique(rows) && RowsDelivered(labels, rows) && KeysAgree(labels)
    requires i < |rows| && j < |rows| && SameExternal(rows[i].core, rows[j].core)
    ensures i == j
  {
    assert RowOk(rows, rows[i]) && RowOk(rows, rows[j]);
    assert Delivered(labels, rows[i].core.req, rows[i].core.key);
    assert Delivered(labels, rows[j].core.req, rows[j].core.key);
    assert SameKey(rows[i].core, rows[j].core);
  }

  /** Every request with a provider, also one that a foreign process stores, uses the key provider:externalId. */
  ghost predicate DerivedLabel(l: Label) {
    match l
    case Arrive(_, Process(req, key)) => req.provider == "" || key == DerivedKey(req)
    case ForeignPending(core) => core.req.provider == "" || core.key == DerivedKey(core.req)
    case _ => true
  }

  /** So derived keys suffice. */
  lemma {:induction false} DerivedKeysUnique(labels: seq<Label>)
    requires forall k :: 0 <= k < |labels| ==> DerivedLabel(labels[k])
    ensures UniqueExternal(Exec(INIT, labels).store.rows)
  {
    forall r, k, q, m | Delivered(labels, r, k) && Delivered(labels, q, m) && SharePair(r, q)
      ensures k == m
    {
      DeliveredDerived(labels, r, k);
      DeliveredDerived(labels, q, m);
    }
    AgreeingKeysUnique(labels);
  }

  lemma {:induction false} DeliveredDerived(labels: seq<Label>, req: Request, key: string)
    requires forall k :: 0 <= k < |labels| ==> DerivedLabel(labels[k])
    requires Delivered(labels, req, key) && req.provider != ""
    ensures key == DerivedKey(req)
  {
    if Arrived(labels, req, key) {
      var k :| 0 <= k < |labels| && labels[k].Arrive? && labels[k].call == Process(req, key);
      assert DerivedLabel(labels[k]);
    } else {
      var k :| 0 <= k < |labels| && labels[k].ForeignPending? && labels[k].core.req == req && labels[k].core.key == key;
      assert DerivedLabel(labels[k]);
    }
  }

  // ---------------------------------------------------------------- one call at a time

  /** At most one call is in progress. */
  ghost predicate OneAtATime(s: Sys) {
    forall a, b | a in s.actors && b in s.actors && !s.actors[a].pc.Done? && !s.actors[b].pc.Done? :: a == b
  }

  ghost predicate NoForeign(l: Label) {
    !l.ForeignPending? && !l.ForeignSettle?
  }

  ghost predicate NoExternal(rows: seq<Row>, req: Request) {
    forall i :: 0 <= i < |rows| ==> !HasExternal(rows[i].core, req.provider, req.externalId)
  }

  ghost predicate NoKey(rows: seq<Row>, req: Request, key: string) {
    forall i :: 0 <= i < |rows| ==> !HasKey(rows[i].core, req.provider, key)
  }

  /** What the only call in progress still knows from its checks. */
  ghost predicate ChecksHold(rows: seq<Row>, call: Call, pc: Pc) {
    call.Process? ==>
      match pc
      case FindByKey => true
      case FindDuplicate => true
      case ReplayBalance(_, _) => true
      case ReportBalance(_, _, _, _) => true
      case Done(_) => true
      case CheckExternal => NoKey(rows, call.req, call.key)
      case _ => NoExternal(rows, call.req)
  }

  lemma PassedChecks(rows: seq<Row>, call: Call)
    requires call.Process? && call.key != "" && NoKey(rows, call.req, call.key)
    requires !ExternalUnderOtherKey(rows, call.req.provider, call.req.externalId, call.key)
    ensures NoExternal(rows, call.req)
  {
    forall i | 0 <= i < |rows|
      ensures !HasExternal(rows[i].core, call.req.provider, call.req.externalId)
    {
      assert HasExternal(rows[i].core, call.req.provider, call.req.externalId) ==>
        HasKey(rows[i].core, call.req.provider, call.key);
    }
  }

  /** No step leads back to the check of the external identifier, and a replay stays one. */
  lemma NeverBack(st: Store, call: Call, pc: Pc, o: Oracle)
    requires PcOk(st, call, pc) && call.Process? && !pc.FindByKey? && !pc.CheckExternal?
    ensures !Advance(st, call, pc, o).CheckExternal?
    ensures pc.FindDuplicate? || pc.ReplayBalance? || pc.ReportBalance? || pc.Done? ==>
              var next := Advance(st, call, pc, o); next.ReplayBalance? || next.Done?
  {
  }

  lemma AdvanceKeepsChecks(st: Store, call: Call, pc: Pc, o: Oracle)
    requires PcOk(st, call, pc) && ChecksHold(st.rows, call, pc) && (call.Process? ==> call.key != "")
    ensures ChecksHold(st.rows, call, Advance(st, call, pc, o))
  {
    if call.Process? && pc.CheckExternal? {
      if !ExternalUnderOtherKey(st.rows, call.req.provider, call.req.externalId, call.key) {
        PassedChecks(st.rows, call);
      }
    } else if call.Process? && !pc.FindByKey? {
      NeverBack(st, call, pc, o);
    }
  }

  ghost predicate KeysNamed(s: Sys) {
    forall a :: a in s.actors && s.actors[a].call.Process? ==> s.actors[a].call.key != ""
  }

  ghost predicate Checked(s: Sys) {
    && UniqueExternal(s.store.rows) && KeysNamed(s)
    && forall a :: a in s.actors ==> ChecksHold(s.store.rows, s.actors[a].call, s.actors[a].pc)
  }

  lemma NewExternalIsNew(st: Store, call: Call, w: Write, after: After, i: nat)
    requires PcOk(st, call, Commit(w, after)) && ChecksHold(st.rows, call, Commit(w, after)) && Applicable(st, w)
    requires i < |st.rows| < |Apply(st, w).rows|
    ensures var c := Apply(st, w).rows[|st.rows|].core;
            !SameExternal(c, st.rows[i].core) && !SameExternal(st.rows[i].core, c)
  {
    if w.Insert? {
      assert !HasExternal(st.rows[i].core, call.req.provider, call.req.externalId);
    }
  }

  lemma WriteKeepsUnique(st: Store, call: Call, w: Write, after: After)
    requires UniqueExternal(st.rows) && PcOk(st, call, Commit(w, after)) && ChecksHold(st.rows, call, Commit(w, after))
    requires Applicable(st, w)
    ensures UniqueExternal(Apply(st, w).rows)
  {
    ApplyRows(st, w);
    var rows' := Apply(st, w).rows;
    forall i, j | 0 <= i < |rows'| && 0 <= j < |rows'| && SameExternal(rows'[i].core, rows'[j].core)
      ensures i == j
    {
      if i < |st.rows| && j < |st.rows| {
        assert SameExternal(st.rows[i].core, st.rows[j].core);
      } else if i != j {
        NewExternalIsNew(st, call, w, after, if i < j then i else j);
      }
    }
  }

  lemma CommitEndsChecks(rows: seq<Row>, st: Store, call: Call, w: Write, after: After)
    requires PcOk(st, call, Commit(w, after))
    ensures ChecksHold(rows, call, Committed(st, w, after)) && ChecksHold(rows, call, Violated(w, after))
  {
  }

  lemma CommitKeepsChecked(s: Sys, a: nat, o: Oracle)
    requires ActorsOk(s) && Checked(s) && OneAtATime(s) && a in s.actors && s.actors[a].pc.Commit?
    ensures Checked(ActorStep(s, a, o))
  {
    var actor, s' := s.actors[a], ActorStep(s, a, o);
    var w, after := actor.pc.write, actor.pc.after;
    assert PcOk(s.store, actor.call, actor.pc);
    if Applicable(s.store, w) && Admits(s.store, w) {
      WriteKeepsUnique(s.store, actor.call, w, after);
    }
    CommitEndsChecks(s'.store.rows, s.store, actor.call, w, after);
    forall b | b in s'.actors
      ensures ChecksHold(s'.store.rows, s'.actors[b].call, s'.actors[b].pc)
    {
      if b != a { assert s.actors[b].pc.Done?; }
    }
  }

  lemma StepKeepsChecked(s: Sys, a: nat, o: Oracle)
    requires ActorsOk(s) && Checked(s) && OneAtATime(s) && a in s.actors
    ensures Checked(ActorStep(s, a, o))
  {
    var actor := s.actors[a];
    if actor.pc.Commit? {
      CommitKeepsChecked(s, a, o);
    } else {
      AdvanceKeepsChecks(s.store, actor.call, actor.pc, o);
    }
  }

  /** When calls run one at a time the two checks suffice, whatever keys are used. */
  lemma {:induction false} SequentialCallsUnique(labels: seq<Label>)
    requires forall k :: 0 <= k < |labels| ==> NoForeign(labels[k]) && OneAtATime(Exec(INIT, labels[..k]))
    ensures Checked(Exec(INIT, labels))
    ensures UniqueExternal(Exec(INIT, labels).store.rows)
  {
    if labels != [] {
      var front, l := labels[..|labels| - 1], labels[|labels| - 1];
      assert forall k :: 0 <= k < |front| ==> labels[..k] == front[..k] && labels[k] == front[k];
      SequentialCallsUnique(front);
      ReachableInv(front);
      assert OneAtATime(Exec(INIT, labels[..|labels| - 1]));
      NextKeepsChecked(Exec(INIT, front), l);
    }
  }

  lemma NextKeepsChecked(s: Sys, l: Label)
    requires ActorsOk(s) && Checked(s) && OneAtATime(s) && NoForeign(l)
    ensures Checked(Next(s, l))
  {
    match l {
      case Step(a, o) =>
        if a in s.actors && !Blocked(s, a) { StepKeepsChecked(s, a, o); }
      case _ =>
    }
  }
}
