/** The outbox publisher: a bounded retry loop that several instances may run at once. */
module Publisher {
  /** A row of outbox_events, as far as the publisher is concerned. */
  datatype OutboxRow = OutboxRow(payload: string, attempts: nat, published: bool)

  /** An event as a poll returned it. */
  datatype Snapshot = Snapshot(id: nat, attempts: nat)

  /** How a send ended: accepted, refused, or given up because the context was cancelled. */
  datatype Send = Accepted | Refused | Cancelled

  const MAX_ATTEMPTS: nat := 5
  const BATCH: nat := 10

  // ---------------------------------------------------------------- one event, one batch

  function MarkPublished(rows: seq<OutboxRow>, id: nat): seq<OutboxRow> {
    if id < |rows| then rows[id := rows[id].(published := true)] else rows
  }

  function IncrementAttempts(rows: seq<OutboxRow>, id: nat): seq<OutboxRow> {
    if id < |rows| then rows[id := rows[id].(attempts := rows[id].attempts + 1)] else rows
  }

  /** What publishing one event does to the table. */
  function AfterPublish(rows: seq<OutboxRow>, ev: Snapshot, send: Send): seq<OutboxRow> {
    if ev.attempts >= MAX_ATTEMPTS then rows
    else
      match send
      case Accepted => MarkPublished(rows, ev.id)
      case Refused => IncrementAttempts(rows, ev.id)
      case Cancelled => rows
  }

  function AfterBatch(rows: seq<OutboxRow>, batch: seq<Snapshot>, sends: seq<Send>): seq<OutboxRow>
    requires |batch| == |sends|
  {
    if batch == [] then rows
    else AfterPublish(AfterBatch(rows, batch[..|batch| - 1], sends[..|sends| - 1]), batch[|batch| - 1],
      sends[|sends| - 1])
  }

  /** What one send leaves of an event that had been taken with that many attempts. */
  predicate Handled(row: OutboxRow, row': OutboxRow, taken: nat, send: Send) {
    && row'.payload == row.payload
    && row'.published == (row.published || (send == Accepted && taken < 5))
    && row'.attempts == row.attempts + if send == Refused && taken < 5 then 1 else 0
  }

  /** A batch of distinct events: each is handled once, and no other event changes. */
  lemma {:induction false} BatchHandled(rows: seq<OutboxRow>, batch: seq<Snapshot>, sends: seq<Send>)
    requires |batch| == |sends| && forall i, j :: 0 <= i < j < |batch| ==> batch[i].id != batch[j].id
    ensures var rows' := AfterBatch(rows, batch, sends);
            && |rows'| == |rows|
            && (forall k :: 0 <= k < |batch| && batch[k].id < |rows| ==>
                  Handled(rows[batch[k].id], rows'[batch[k].id], batch[k].attempts, sends[k]))
            && (forall id :: 0 <= id < |rows| && (forall k :: 0 <= k < |batch| ==> batch[k].id != id) ==>
                  rows'[id] == rows[id])
  {
    if batch != [] {
      var n := |batch| - 1;
      BatchHandled(rows, batch[..n], sends[..n]);
      var mid := AfterBatch(rows, batch[..n], sends[..n]);
      assert forall k :: 0 <= k < n ==> batch[k] == batch[..n][k] && sends[k] == sends[..n][k];
      if batch[n].id < |rows| {
        assert mid[batch[n].id] == rows[batch[n].id];
        PublishHandled(mid, batch[n], sends[n]);
      }
    }
  }

  lemma PublishHandled(rows: seq<OutboxRow>, ev: Snapshot, send: Send)
    requires ev.id < |rows|
    ensures var rows' := AfterPublish(rows, ev, send);
            && |rows'| == |rows| && Handled(rows[ev.id], rows'[ev.id], ev.attempts, send)
            && forall i :: 0 <= i < |rows| && i != ev.id ==> rows'[i] == rows[i]
  {
  }

  /** The outbox table with the repository's two updates, and the publisher's loop over a batch. */
  class Outbox {
    var rows: seq<OutboxRow>

    method Mark(id: nat)
      modifies this
      ensures rows == MarkPublished(old(rows), id)
    {
      if id < |rows| { rows := rows[id := rows[id].(published := true)]; }
    }

    method Increment(id: nat)
      modifies this
      ensures rows == IncrementAttempts(old(rows), id)
    {
      if id < |rows| { rows := rows[id := rows[id].(attempts := rows[id].attempts + 1)]; }
    }

    method Publish(ev: Snapshot, send: Send)
      modifies this
      ensures rows == AfterPublish(old(rows), ev, send)
      ensures |rows| == |old(rows)|
      ensures ev.id < |rows| ==> Handled(old(rows)[ev.id], rows[ev.id], ev.attempts, send)
      ensures forall i :: 0 <= i < |rows| && i != ev.id ==> rows[i] == old(rows)[i]
    {
      if ev.attempts >= MAX_ATTEMPTS { return; }
      match send {
        case Cancelled => return;
        case Refused => Increment(ev.id);
        case Accepted => Mark(ev.id);
      }
    }

    method PublishBatch(batch: seq<Snapshot>, sends: seq<Send>)
      requires |batch| == |sends|
      modifies this
      ensures rows == AfterBatch(old(rows), batch, sends)
      ensures (forall i, j :: 0 <= i < j < |batch| ==> batch[i].id != batch[j].id) ==>
                && |rows| == |old(rows)|
                && forall k :: 0 <= k < |batch| && batch[k].id < |rows| ==>
                     Handled(old(rows)[batch[k].id], rows[batch[k].id], batch[k].attempts, sends[k])
    {
      for i := 0 to |batch|
        invariant rows == AfterBatch(old(rows), batch[..i], sends[..i])
      {
        Publish(batch[i], sends[i]);
        assert batch[..i + 1][..i] == batch[..i] && sends[..i + 1][..i] == sends[..i];
      }
      assert batch[..|batch|] == batch && sends[..|sends|] == sends;
      if forall i, j :: 0 <= i < j < |batch| ==> batch[i].id != batch[j].id {
        BatchHandled(old(rows), batch, sends);
      }
    }
  }

  // ---------------------------------------------------------------- concurrent publishers

  /** What is still to be written for the event at the head of the batch. */
  datatype Phase = Ready | Delivered | Undelivered

  datatype Worker = Worker(batch: seq<Snapshot>, phase: Phase)

  /** The table, n workers, and every payload that a send delivered. */
  datatype Outboxes = Outboxes(rows: seq<OutboxRow>, workers: seq<Worker>, delivered: set<(nat, string)>)

  datatype Action =
    | Append(payload: string)               // a committed transaction adds an event
    | Poll(p: nat, ids: seq<nat>)           // FindPending: its row locks end with the statement
    | Skip(p: nat)                          // the event has used up its attempts, or the send was cancelled
    | Try(p: nat, accepted: bool)           // the send
    | Write(p: nat, ok: bool)               // the update that follows; ok is false if the database failed
    | Restart(p: nat)                       // a crash, or the end of a batch

  /** Distinct unpublished events, at most a batch of them. */
  predicate Pollable(rows: seq<OutboxRow>, ids: seq<nat>) {
    && |ids| <= BATCH
    && (forall i :: 0 <= i < |ids| ==> ids[i] < |rows| && !rows[ids[i]].published)
    && (forall i, j :: 0 <= i < j < |ids| ==> ids[i] != ids[j])
  }

  function Snapshots(rows: seq<OutboxRow>, ids: seq<nat>): (r: seq<Snapshot>)
    requires forall i :: 0 <= i < |ids| ==> ids[i] < |rows|
    ensures |r| == |ids| && forall i :: 0 <= i < |ids| ==> r[i] == Snapshot(ids[i], rows[ids[i]].attempts)
  {
    seq(|ids|, i requires 0 <= i < |ids| => Snapshot(ids[i], rows[ids[i]].attempts))
  }

  function SetWorker(s: Outboxes, p: nat, w: Worker): Outboxes
    requires p < |s.workers|
  {
    s.(workers := s.workers[p := w])
  }

  function Next(s: Outboxes, a: Action): Outboxes {
    match a
    case Append(payload) => s.(rows := s.rows + [OutboxRow(payload, 0, false)])
    case Poll(p, ids) =>
      if p < |s.workers| && s.workers[p].batch == [] && Pollable(s.rows, ids) then
        SetWorker(s, p, Worker(Snapshots(s.rows, ids), Ready))
      else s
    case Skip(p) =>
      if p < |s.workers| && s.workers[p].batch != [] && s.workers[p].phase == Ready then
        SetWorker(s, p, Worker(s.workers[p].batch[1..], Ready))
      else s
    case Try(p, accepted) =>
      if p < |s.workers| && s.workers[p].batch != [] && s.workers[p].phase == Ready
        && s.workers[p].batch[0].attempts < MAX_ATTEMPTS
         && s.workers[p].batch[0].id < |s.rows| then
        var t := SetWorker(s, p, s.workers[p].(phase := if accepted then Delivered else Undelivered));
        if accepted then
          t.(delivered := s.delivered + {(s.workers[p].batch[0].id, s.rows[s.workers[p].batch[0].id].payload)}) else t
      else s
    case Write(p, ok) =>
      if p < |s.workers| && s.workers[p].batch != [] && s.workers[p].phase != Ready then
        var ev := s.workers[p].batch[0];
        var t := SetWorker(s, p, Worker(s.workers[p].batch[1..], Ready));
        if !ok then t
        else if s.workers[p].phase == Delivered then t.(rows := MarkPublished(s.rows, ev.id))
        else t.(rows := IncrementAttempts(s.rows, ev.id))
      else s
    case Restart(p) => if p < |s.workers| then SetWorker(s, p, Worker([], Ready)) else s
  }

  function Exec(s: Outboxes, actions: seq<Action>): Outboxes {
    if actions == [] then s else Next(Exec(s, actions[..|actions| - 1]), actions[|actions| - 1])
  }

  /** n idle publishers over an empty outbox. */
  function Initial(n: nat): Outboxes {
    Outboxes([], seq(n, _ => Worker([], Ready)), {})
  }

  // ---------------------------------------------------------------- invariant

  /** The worker may still raise the attempts of event id. */
  predicate MayRaise(w: Worker, id: nat) {
    exists i :: 0 <= i < |w.batch| && w.batch[i].id == id && w.batch[i].attempts < MAX_ATTEMPTS
  }

  function Raisers(workers: seq<Worker>, id: nat): (n: nat)
    ensures n <= |workers|
  {
    if workers == [] then 0
    else Raisers(workers[..|workers| - 1], id) + if MayRaise(workers[|workers| - 1], id) then 1 else 0
  }

  ghost predicate BatchOk(rows: seq<OutboxRow>, w: Worker) {
    && (forall i :: 0 <= i < |w.batch| ==>
         w.batch[i].id < |rows| && w.batch[i].attempts <= rows[w.batch[i].id].attempts)
    && (forall i, j :: 0 <= i < j < |w.batch| ==> w.batch[i].id != w.batch[j].id)
    && (w.batch == [] ==> w.phase == Ready)
    && (w.phase == Undelivered ==> w.batch[0].attempts < MAX_ATTEMPTS)
  }

  ghost predicate Budget(s: Outboxes, id: nat) {
    id < |s.rows| ==> s.rows[id].attempts + Raisers(s.workers, id) <= 4 + |s.workers|
  }

  ghost predicate HeadDelivered(s: Outboxes, p: nat)
    requires p < |s.workers|
  {
    var w := s.workers[p];
    w.batch != [] && w.batch[0].id < |s.rows| && w.phase == Delivered ==>
      (w.batch[0].id, s.rows[w.batch[0].id].payload) in s.delivered
  }

  ghost predicate Inv(s: Outboxes) {
    && (forall p :: 0 <= p < |s.workers| ==> BatchOk(s.rows, s.workers[p]))
    && (forall p :: 0 <= p < |s.workers| ==> HeadDelivered(s, p))
    && (forall id: nat :: Budget(s, id))
    && (forall id :: 0 <= id < |s.rows| && s.rows[id].published ==> (id, s.rows[id].payload) in s.delivered)
  }

  lemma {:induction false} RaisersUpdate(workers: seq<Worker>, p: nat, w: Worker, id: nat)
    requires p < |workers|
    ensures Raisers(workers[p := w], id) ==
            Raisers(workers, id) - (if MayRaise(workers[p], id) then 1 else 0) + if MayRaise(w, id) then 1 else 0
  {
    var front, n := workers[..|workers| - 1], |workers| - 1;
    if p == n {
      assert workers[p := w][..n] == front;
    } else {
      RaisersUpdate(front, p, w, id);
      assert workers[p := w][..n] == front[p := w];
    }
  }

  lemma TailRaises(w: Worker, id: nat)
    requires w.batch != []
    ensures MayRaise(Worker(w.batch[1..], Ready), id) ==> MayRaise(w, id)
  {
    if MayRaise(Worker(w.batch[1..], Ready), id) {
      var i :| 0 <= i < |w.batch| - 1 && w.batch[1..][i].id == id && w.batch[1..][i].attempts < MAX_ATTEMPTS;
      assert w.batch[i + 1].id == id;
    }
  }

  /** After the head of a batch has been dealt with, its worker no longer counts for that event. */
  lemma HeadDone(rows: seq<OutboxRow>, w: Worker)
    requires w.batch != [] && BatchOk(rows, w) && w.batch[0].attempts < MAX_ATTEMPTS
    ensures MayRaise(w, w.batch[0].id) && !MayRaise(Worker(w.batch[1..], Ready), w.batch[0].id)
  {
  }

  /** A poll counts for an event only while its attempts are below the limit. */
  lemma PollBudget(s: Outboxes, p: nat, ids: seq<nat>, id: nat)
    requires Inv(s) && p < |s.workers| && s.workers[p].batch == [] && Pollable(s.rows, ids)
    ensures Budget(Next(s, Poll(p, ids)), id)
  {
    var w := Worker(Snapshots(s.rows, ids), Ready);
    assert Budget(s, id);
    RaisersUpdate(s.workers, p, w, id);
    if id < |s.rows| && MayRaise(w, id) {
      assert s.rows[id].attempts < MAX_ATTEMPTS;
    }
  }

  /** One worker moves on and the table stays as it is. */
  lemma WorkerMoves(s: Outboxes, p: nat, w: Worker)
    requires Inv(s) && p < |s.workers| && BatchOk(s.rows, w)
    requires w.phase == Delivered ==> (w.batch[0].id, s.rows[w.batch[0].id].payload) in s.delivered
    requires forall id: nat :: Budget(SetWorker(s, p, w), id)
    ensures Inv(SetWorker(s, p, w))
  {
    var s' := SetWorker(s, p, w);
    forall q | 0 <= q < |s'.workers|
      ensures HeadDelivered(s', q)
    {
      assert HeadDelivered(s, q);
    }
  }

  lemma PollKeepsInv(s: Outboxes, p: nat, ids: seq<nat>)
    requires Inv(s)
    ensures Inv(Next(s, Poll(p, ids)))
  {
    if p < |s.workers| && s.workers[p].batch == [] && Pollable(s.rows, ids) {
      forall id: nat
        ensures Budget(SetWorker(s, p, Worker(Snapshots(s.rows, ids), Ready)), id)
      {
        PollBudget(s, p, ids, id);
      }
      WorkerMoves(s, p, Worker(Snapshots(s.rows, ids), Ready));
    }
  }

  /** Dropping the head of a batch, or the whole batch, frees budget. */
  lemma DropKeepsInv(s: Outboxes, p: nat, w: Worker)
    requires Inv(s) && p < |s.workers| && BatchOk(s.rows, w)
    requires w.phase == Delivered ==> (w.batch[0].id, s.rows[w.batch[0].id].payload) in s.delivered
    requires forall id: nat :: MayRaise(w, id) ==> MayRaise(s.workers[p], id)
    ensures Inv(SetWorker(s, p, w))
  {
    forall id: nat
      ensures Budget(SetWorker(s, p, w), id)
    {
      assert Budget(s, id);
      RaisersUpdate(s.workers, p, w, id);
    }
    WorkerMoves(s, p, w);
  }

  lemma RestartKeepsInv(s: Outboxes, p: nat)
    requires Inv(s)
    ensures Inv(Next(s, Restart(p)))
  {
    if p < |s.workers| {
      DropKeepsInv(s, p, Worker([], Ready));
    }
  }

  lemma SkipKeepsInv(s: Outboxes, p: nat)
    requires Inv(s)
    ensures Inv(Next(s, Skip(p)))
  {
    if p < |s.workers| && s.workers[p].batch != [] {
      forall id: nat
        ensures MayRaise(Worker(s.workers[p].batch[1..], Ready), id) ==> MayRaise(s.workers[p], id)
      {
        TailRaises(s.workers[p], id);
      }
      assert BatchOk(s.rows, s.workers[p]);
      DropKeepsInv(s, p, Worker(s.workers[p].batch[1..], Ready));
    }
  }

  lemma DeliveriesKeepInv(s: Outboxes, more: set<(nat, string)>)
    requires Inv(s)
    ensures Inv(s.(delivered := s.delivered + more))
  {
    var s' := s.(delivered := s.delivered + more);
    forall q | 0 <= q < |s'.workers|
      ensures HeadDelivered(s', q)
    {
      assert HeadDelivered(s, q);
    }
    forall id: nat
      ensures Budget(s', id)
    {
      assert Budget(s, id);
    }
  }

  lemma TryKeepsInv(s: Outboxes, p: nat, accepted: bool)
    requires Inv(s)
    ensures Inv(Next(s, Try(p, accepted)))
  {
    if p < |s.workers| && s.workers[p].batch != [] && s.workers[p].phase == Ready
      && s.workers[p].batch[0].attempts < MAX_ATTEMPTS {
      var w := s.workers[p];
      assert BatchOk(s.rows, w);
      if accepted {
        var more := {(w.batch[0].id, s.rows[w.batch[0].id].payload)};
        DeliveriesKeepInv(s, more);
        DropKeepsInv(s.(delivered := s.delivered + more), p, w.(phase := Delivered));
      } else {
        DropKeepsInv(s, p, w.(phase := Undelivered));
      }
    }
  }

  /** Raising the attempts uses up the budget that the worker held. */
  lemma RaiseBudget(s: Outboxes, p: nat, id: nat)
    requires Inv(s) && p < |s.workers| && s.workers[p].batch != [] && s.workers[p].phase == Undelivered
    ensures Budget(Next(s, Write(p, true)), id)
  {
    var w := s.workers[p];
    assert Budget(s, id) && BatchOk(s.rows, w);
    RaisersUpdate(s.workers, p, Worker(w.batch[1..], Ready), id);
    HeadDone(s.rows, w);
    TailRaises(w, id);
  }

  lemma MarkBudget(s: Outboxes, p: nat, ok: bool, id: nat)
    requires Inv(s) && p < |s.workers| && s.workers[p].batch != [] && s.workers[p].phase != Ready
    requires s.workers[p].phase == Delivered || !ok
    ensures Budget(Next(s, Write(p, ok)), id)
  {
    var w := s.workers[p];
    assert Budget(s, id);
    RaisersUpdate(s.workers, p, Worker(w.batch[1..], Ready), id);
    TailRaises(w, id);
  }

  lemma WriteKeepsInv(s: Outboxes, p: nat, ok: bool)
    requires Inv(s)
    ensures Inv(Next(s, Write(p, ok)))
  {
    var s' := Next(s, Write(p, ok));
    if p < |s.workers| && s.workers[p].batch != [] && s.workers[p].phase != Ready {
      forall id: nat
        ensures Budget(s', id)
      {
        if s.workers[p].phase == Undelivered && ok {
          RaiseBudget(s, p, id);
        } else {
          MarkBudget(s, p, ok, id);
        }
      }
      assert BatchOk(s.rows, s.workers[p]) && HeadDelivered(s, p);
      forall q | 0 <= q < |s'.workers|
        ensures BatchOk(s'.rows, s'.workers[q])
      {
        assert BatchOk(s.rows, s.workers[q]);
      }
      forall q | 0 <= q < |s'.workers|
        ensures HeadDelivered(s', q)
      {
        assert HeadDelivered(s, q);
      }
    }
  }

  /** A new event starts with the whole budget; no batch mentions it yet. */
  lemma AppendKeepsInv(s: Outboxes, payload: string)
    requires Inv(s)
    ensures Inv(Next(s, Append(payload)))
  {
    var s' := Next(s, Append(payload));
    forall id: nat
      ensures Budget(s', id)
    {
      assert Budget(s, id);
    }
    forall q | 0 <= q < |s'.workers|
      ensures BatchOk(s'.rows, s'.workers[q]) && HeadDelivered(s', q)
    {
      assert BatchOk(s.rows, s.workers[q]) && HeadDelivered(s, q);
    }
  }

  lemma NextKeepsInv(s: Outboxes, a: Action)
    requires Inv(s)
    ensures Inv(Next(s, a)) && |Next(s, a).workers| == |s.workers|
  {
    match a {
      case Append(payload) => AppendKeepsInv(s, payload);
      case Poll(p, ids) => PollKeepsInv(s, p, ids);
      case Skip(p) => SkipKeepsInv(s, p);
      case Try(p, accepted) => TryKeepsInv(s, p, accepted);
      case Write(p, ok) => WriteKeepsInv(s, p, ok);
      case Restart(p) => RestartKeepsInv(s, p);
    }
  }

  lemma {:induction false} ReachableInv(n: nat, actions: seq<Action>)
    ensures Inv(Exec(Initial(n), actions)) && |Exec(Initial(n), actions).workers| == n
  {
    if actions != [] {
      ReachableInv(n, actions[..|actions| - 1]);
      NextKeepsInv(Exec(Initial(n), actions[..|actions| - 1]), actions[|actions| - 1]);
    }
  }

  // ---------------------------------------------------------------- results

  /**
   With n publishers an event is marked published only after a send of its payload succeeded, and its attempts never
   exceed 4 + n.
   */
  lemma {:induction false} PublisherBudget(n: nat, actions: seq<Action>, id: nat)
    requires id < |Exec(Initial(n), actions).rows|
    ensures var s := Exec(Initial(n), actions);
            && (s.rows[id].published ==> (id, s.rows[id].payload) in s.delivered)
            && s.rows[id].attempts <= 4 + n
  {
    ReachableInv(n, actions);
    assert Budget(Exec(Initial(n), actions), id);
  }

  // ---------------------------------------------------------------- exactly when an event is published

  /** Worker p stands before the send of event id and has not given it up. */
  ghost predicate BeforeSend(s: Outboxes, p: nat, id: nat) {
    && p < |s.workers| && s.workers[p].batch != [] && s.workers[p].phase == Ready
    && s.workers[p].batch[0].id == id && s.workers[p].batch[0].attempts < 5
  }

  /** Worker p's send of event id was accepted, and the worker has neither written nor restarted since. */
  ghost predicate Sent(n: nat, actions: seq<Action>, p: nat, id: nat) {
    actions != [] &&
    var front, a := actions[..|actions| - 1], actions[|actions| - 1];
    || (a == Try(p, true) && BeforeSend(Exec(Initial(n), front), p, id))
    || (Sent(n, front, p, id) && a !in {Restart(p), Write(p, true), Write(p, false)})
  }

  /** Some accepted send of event id was followed by the same worker's successful write. */
  ghost predicate Confirmed(n: nat, actions: seq<Action>, id: nat) {
    actions != [] &&
    var front, a := actions[..|actions| - 1], actions[|actions| - 1];
    Confirmed(n, front, id) || (a.Write? && a.ok && Sent(n, front, a.p, id))
  }

  predicate Holds(s: Outboxes, p: nat, id: nat) {
    && p < |s.workers| && s.workers[p].batch != [] && s.workers[p].phase == Delivered && s.workers[p].batch[0].id == id
  }

  lemma NextHolds(s: Outboxes, a: Action, p: nat, id: nat)
    requires Inv(s)
    ensures Holds(Next(s, a), p, id) <==>
            || (a == Try(p, true) && BeforeSend(s, p, id))
            || (Holds(s, p, id) && a !in {Restart(p), Write(p, true), Write(p, false)})
  {
    if p < |s.workers| { assert BatchOk(s.rows, s.workers[p]); }
  }

  lemma {:induction false} SentIsHeld(n: nat, actions: seq<Action>, p: nat, id: nat)
    ensures Sent(n, actions, p, id) <==> Holds(Exec(Initial(n), actions), p, id)
  {
    if actions != [] {
      var front, a := actions[..|actions| - 1], actions[|actions| - 1];
      SentIsHeld(n, front, p, id);
      ReachableInv(n, front);
      NextHolds(Exec(Initial(n), front), a, p, id);
    }
  }

  lemma NextPublishes(s: Outboxes, a: Action, id: nat)
    requires Inv(s) && id < |Next(s, a).rows|
    ensures Next(s, a).rows[id].published <==>
            (id < |s.rows| && s.rows[id].published) || (a.Write? && a.ok && Holds(s, a.p, id))
  {
    if a.Write? && a.p < |s.workers| { assert BatchOk(s.rows, s.workers[a.p]); }
  }

  lemma {:induction false} ConfirmedExists(n: nat, actions: seq<Action>, id: nat)
    requires Confirmed(n, actions, id)
    ensures id < |Exec(Initial(n), actions).rows|
  {
    var front, a := actions[..|actions| - 1], actions[|actions| - 1];
    ReachableInv(n, front);
    if Confirmed(n, front, id) {
      ConfirmedExists(n, front, id);
    } else {
      SentIsHeld(n, front, a.p, id);
      assert BatchOk(Exec(Initial(n), front).rows, Exec(Initial(n), front).workers[a.p]);
    }
  }

  /** An event is published if and only if an accepted send of it was followed by that worker's successful write. */
  lemma {:induction false} PublishedExactly(n: nat, actions: seq<Action>, id: nat)
    requires id < |Exec(Initial(n), actions).rows|
    ensures Exec(Initial(n), actions).rows[id].published <==> Confirmed(n, actions, id)
  {
    if actions != [] {
      var front, a := actions[..|actions| - 1], actions[|actions| - 1];
      var s := Exec(Initial(n), front);
      ReachableInv(n, front);
      NextPublishes(s, a, id);
      if a.Write? { SentIsHeld(n, front, a.p, id); }
      if id < |s.rows| {
        PublishedExactly(n, front, id);
      } else if Confirmed(n, front, id) {
        ConfirmedExists(n, front, id);
      }
    }
  }

  /** A poll that takes effect returns at most ten distinct events, with their attempts, and none that is published. */
  lemma {:induction false} PollReturns(n: nat, actions: seq<Action>, p: nat, ids: seq<nat>)
    ensures var s := Exec(Initial(n), actions);
            var s' := Next(s, Poll(p, ids));
            s' != s ==>
              && p < |s'.workers| && |s'.workers[p].batch| == |ids| <= 10
              && (forall k :: 0 <= k < |ids| ==>
                    && ids[k] < |s.rows| && !s.rows[ids[k]].published
                    && s'.workers[p].batch[k] == Snapshot(ids[k], s.rows[ids[k]].attempts))
              && (forall i, j :: 0 <= i < j < |ids| ==> ids[i] != ids[j])
  {
  }

  /** From the moment an event is published it stays so, and no later poll returns it. */
  lemma {:induction false} PublishedForGood(
    n: nat, actions: seq<Action>, later: seq<Action>, id: nat, p: nat, ids: seq<nat>)
    requires id < |Exec(Initial(n), actions).rows| && Exec(Initial(n), actions).rows[id].published
    ensures var s := Exec(Initial(n), actions + later);
            && id < |s.rows| && s.rows[id].published
            && (Next(s, Poll(p, ids)) != s ==> id !in ids)
  {
    if later == [] {
      assert actions + later == actions;
    } else {
      var front := later[..|later| - 1];
      assert (actions + later)[..|actions + later| - 1] == actions + front;
      PublishedForGood(n, actions, front, id, p, ids);
      ReachableInv(n, actions + front);
      StaysPublished(Exec(Initial(n), actions + front), later[|later| - 1], id);
    }
    PollReturns(n, actions + later, p, ids);
  }

  lemma StaysPublished(s: Outboxes, a: Action, id: nat)
    requires id < |s.rows| && s.rows[id].published
    ensures id < |Next(s, a).rows| && Next(s, a).rows[id].published
  {
  }

  // ---------------------------------------------------------------- the loop is a run

  lemma {:induction false} Extended(s: Outboxes, actions: seq<Action>, a: Action)
    ensures Exec(s, actions + [a]) == Next(Exec(s, actions), a)
  {
    assert (actions + [a])[..|actions|] == actions;
  }

  /** The steps that publishing one event takes. */
  function ActionsFor(p: nat, ev: Snapshot, send: Send): seq<Action> {
    if ev.attempts >= MAX_ATTEMPTS || send == Cancelled then [Skip(p)] else [Try(p, send == Accepted), Write(p, true)]
  }

  lemma {:induction false} SkipIsRun(s: Outboxes, actions: seq<Action>, p: nat)
    requires var t := Exec(s, actions); p < |t.workers| && t.workers[p].batch != [] && t.workers[p].phase == Ready
    ensures var t := Exec(s, actions);
            Exec(s, actions + [Skip(p)]) == SetWorker(t, p, Worker(t.workers[p].batch[1..], Ready))
  {
    Extended(s, actions, Skip(p));
  }

  /** A send and the update that follows it. */
  lemma SendIsStep(t: Outboxes, p: nat, accepted: bool)
    requires p < |t.workers| && t.workers[p].batch != [] && t.workers[p].phase == Ready
    requires t.workers[p].batch[0].id < |t.rows| && t.workers[p].batch[0].attempts < MAX_ATTEMPTS
    ensures var t' := Next(Next(t, Try(p, accepted)), Write(p, true));
            && t'.rows == AfterPublish(t.rows, t.workers[p].batch[0], if accepted then Accepted else Refused)
            && t'.workers == t.workers[p := Worker(t.workers[p].batch[1..], Ready)]
  {
    assert Next(t, Try(p, accepted)).workers[p].phase == if accepted then Delivered else Undelivered;
  }

  lemma {:induction false} PublishIsRun(s: Outboxes, actions: seq<Action>, p: nat, send: Send)
    requires var t := Exec(s, actions);
             p < |t.workers| && t.workers[p].batch != [] && t.workers[p].phase == Ready
               && t.workers[p].batch[0].id < |t.rows|
    ensures var t := Exec(s, actions);
            var t' := Exec(s, actions + ActionsFor(p, t.workers[p].batch[0], send));
            && t'.rows == AfterPublish(t.rows, t.workers[p].batch[0], send)
            && t'.workers == t.workers[p := Worker(t.workers[p].batch[1..], Ready)]
  {
    var ev := Exec(s, actions).workers[p].batch[0];
    if ev.attempts >= MAX_ATTEMPTS || send == Cancelled {
      SkipIsRun(s, actions, p);
    } else {
      SendIsStep(Exec(s, actions), p, send == Accepted);
      var tried := actions + [Try(p, send == Accepted)];
      Extended(s, actions, Try(p, send == Accepted));
      Extended(s, tried, Write(p, true));
      assert actions + ActionsFor(p, ev, send) == tried + [Write(p, true)];
    }
  }

  /** What the loop over a batch leaves in the table is reached by a run in which only that worker moves. */
  lemma {:induction false} BatchIsRun(s: Outboxes, p: nat, sends: seq<Send>, k: nat) returns (actions: seq<Action>)
    requires p < |s.workers| && s.workers[p].phase == Ready && |sends| == |s.workers[p].batch| && k <= |sends|
    requires forall i :: 0 <= i < |sends| ==> s.workers[p].batch[i].id < |s.rows|
    ensures var batch, t := s.workers[p].batch, Exec(s, actions);
            && t.rows == AfterBatch(s.rows, batch[..k], sends[..k]) && |t.rows| == |s.rows|
            && t.workers == s.workers[p := Worker(batch[k..], Ready)]
  {
    var batch := s.workers[p].batch;
    if k == 0 {
      actions := [];
    } else {
      actions := BatchIsRun(s, p, sends, k - 1);
      PublishIsRun(s, actions, p, sends[k - 1]);
      actions := actions + ActionsFor(p, batch[k - 1], sends[k - 1]);
      assert batch[..k][..k - 1] == batch[..k - 1] && sends[..k][..k - 1] == sends[..k - 1];
      assert batch[k - 1..][1..] == batch[k..];
    }
  }

  // ---------------------------------------------------------------- the bound is reached

  /** One event with the given attempts; the first `busy` of n workers have seen it with four attempts. */
  ghost predicate Reached(s: Outboxes, n: nat, attempts: nat, from: nat, busy: nat) {
    && |s.workers| == n && |s.rows| == 1 && s.rows[0].attempts == attempts && !s.rows[0].published
    && forall p :: 0 <= p < n ==> s.workers[p] == Worker(if from <= p < busy then [Snapshot(0, 4)] else [], Ready)
  }

  /** Worker p polls the event. */
  lemma {:induction false} Polls(actions: seq<Action>, n: nat, attempts: nat, p: nat)
    requires p < n && attempts < MAX_ATTEMPTS && Reached(Exec(Initial(n), actions), n, attempts, 0, 0)
    ensures var s, s' := Exec(Initial(n), actions), Exec(Initial(n), actions + [Poll(p, [0])]);
            s' == SetWorker(s, p, Worker([Snapshot(0, attempts)], Ready))
  {
    Extended(Initial(n), actions, Poll(p, [0]));
    var rows := Exec(Initial(n), actions).rows;
    assert Snapshots(rows, [0]) == [Snapshot(0, attempts)];
  }

  /** Worker p holds the event with attempts left; its send fails and is counted. */
  lemma {:induction false} Fails(s: Outboxes, actions: seq<Action>, p: nat, seen: nat) returns (actions': seq<Action>)
    requires var t := Exec(s, actions);
             p < |t.workers| && t.workers[p] == Worker([Snapshot(0, seen)], Ready) && seen < MAX_ATTEMPTS
               && |t.rows| == 1
    ensures var t, t' := Exec(s, actions), Exec(s, actions');
            && t'.rows == [t.rows[0].(attempts := t.rows[0].attempts + 1)]
            && t'.workers == t.workers[p := Worker([], Ready)]
  {
    PublishIsRun(s, actions, p, Refused);
    actions' := actions + ActionsFor(p, Snapshot(0, seen), Refused);
    assert [Snapshot(0, seen)][1..] == [];
  }

  lemma {:induction false} FailsAlone(n: nat, k: nat) returns (actions: seq<Action>)
    requires n > 0 && k <= 4
    ensures Reached(Exec(Initial(n), actions), n, k, 0, 0)
  {
    if k == 0 {
      actions := [Append("")];
      assert [] + [Append("")] == actions;
      Extended(Initial(n), [], Append(""));
    } else {
      actions := FailsAlone(n, k - 1);
      Polls(actions, n, k - 1, 0);
      actions := Fails(Initial(n), actions + [Poll(0, [0])], 0, k - 1);
    }
  }

  lemma {:induction false} AllPoll(n: nat, k: nat) returns (actions: seq<Action>)
    requires n > 0 && k <= n
    ensures Reached(Exec(Initial(n), actions), n, 4, 0, k)
  {
    if k == 0 {
      actions := FailsAlone(n, 4);
    } else {
      var before := AllPoll(n, k - 1);
      actions := before + [Poll(k - 1, [0])];
      Extended(Initial(n), before, Poll(k - 1, [0]));
      assert Snapshots(Exec(Initial(n), before).rows, [0]) == [Snapshot(0, 4)];
    }
  }

  lemma {:induction false} AllFail(n: nat, k: nat) returns (actions: seq<Action>)
    requires n > 0 && k <= n
    ensures Reached(Exec(Initial(n), actions), n, 4 + k, k, n)
  {
    if k == 0 {
      actions := AllPoll(n, n);
    } else {
      var before := AllFail(n, k - 1);
      actions := Fails(Initial(n), before, k - 1, 4);
    }
  }

  /** The bound of PublisherBudget cannot be improved: n publishers that poll together reach it. */
  lemma BudgetAttained(n: nat) returns (actions: seq<Action>)
    requires n > 0
    ensures var s := Exec(Initial(n), actions); |s.rows| == 1 && s.rows[0].attempts == 4 + n
  {
    actions := AllFail(n, n);
  }
}
