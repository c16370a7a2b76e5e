/** The create endpoint as a whole: the transaction, its commit, and the publishing that follows. */
module Endpoint {
  import opened Domain
  import opened Protocol
  import opened Runs
  import opened Safety
  import opened Coverage
  import opened Processes
  import opened Publishers
  import opened Validation
  import opened Creation
  import opened Histories
  import opened Snapshots
  import opened Theorems
  import Tallies

  lemma NewRowsReported(t: Table, items: seq<CreateItem>, at: int)
    requires Wellformed(t) && Acceptable(items)
    ensures
      var (t', rs) := Create(t, items, at);
      forall p :: 0 <= p < |rs| && rs[p].inserted ==>
        rs[p].id in NewRows(t, t') && NewRows(t, t')[rs[p].id] == ToRow(items[p], BatchOf(t, items), at)
  {
    var (t', rs) := Create(t, items, at);
    forall p | 0 <= p < |rs| && rs[p].inserted
      ensures rs[p].id in NewRows(t, t') && NewRows(t, t')[rs[p].id] == ToRow(items[p], BatchOf(t, items), at)
    {
      CreatedRow(t, items, at, p);
    }
  }

  /** Before a row is inserted nothing is done for it. */
  lemma {:induction false} NothingBefore(states: seq<State>, steps: seq<Step>, n: nat)
    requires Run(states, steps) && n !in states[|steps|].cells
    ensures Log(steps, Creator({n})) == []
    decreases |steps|
  {
    if steps != [] {
      var last := |steps| - 1;
      Tallies.Birth(states, steps, n, |steps|);
      RunBefore(states, steps);
      NothingBefore(states[..|steps|], steps[..last], n);
    }
  }

  lemma RunBefore(states: seq<State>, steps: seq<Step>)
    requires Run(states, steps) && steps != []
    ensures Run(states[..|steps|], steps[..|steps| - 1])
  {
    var states', steps' := states[..|steps|], steps[..|steps| - 1];
    forall i | 0 <= i < |steps'| ensures StepAt(states', steps', i) {
      assert StepAt(states, steps, i);
    }
  }

  /** All that the request which inserted row n ever does for it. */
  ghost predicate WholeWork(steps: seq<Step>, n: nat, due: bool, calls: Calls, queued: bool) {
    var did := Log(steps, Creator({n}));
    |did| > 0 && did[0] == Api(TakeTime) && PublishedOrLeft(did[1..], due, calls, queued)
  }

  lemma WorkIsWhole(
    states: seq<State>, steps0: seq<Step>, step: Step, s: State, steps: seq<Step>, n: nat, calls: Calls, queued: bool)
    requires Run(states, steps0) && step.Commit? && CanStep(states[|steps0|], step) && s == Next(states[|steps0|], step)
    requires n in step.rows && exists did :: WorkedOn(s, steps0 + [step], steps, n, calls, queued, did)
    ensures WholeWork(steps, n, DueBy(step.rows[n], states[|steps0|].now), calls, queued)
  {
    NothingBefore(states, steps0, n);
    var did :| WorkedOn(s, steps0 + [step], steps, n, calls, queued, did);
    LastLogged(steps0, steps0 + [step], Creator({n}));
    assert [] + did == did;
  }

  /** For each result: it is reported queued exactly when it is a new row, in rows, and this request's own
      MarkQueued for it succeeded since the commit; and for a new row all was done that its schedule, the
      clock at the commit, and the results of the calls ask for. */
  ghost predicate PublishedAll(
    states: seq<State>, steps: seq<Step>, lo: nat, rows: map<nat, Row>, now: int, results: seq<Result>,
    calls: nat -> Calls, queued: seq<bool>)
  {
    && |queued| == |results| && |states| == |steps| + 1
    && AllTasks(states[|steps|], results, 0, |results|, NoTask)
    && forall i :: 0 <= i < |results| ==>
         && (queued[i] <==> results[i].inserted && QueuedSince(states, steps, lo, results[i].id))
         && (queued[i] ==> LeftPending(states[|steps|], results[i].id))
         && (results[i].inserted ==>
               && results[i].id in rows
               && WholeWork(steps, results[i].id, DueBy(rows[results[i].id], now), calls(i), queued[i]))
  }

  method CommitAndPublish(w: World, step: Step, results: seq<Result>, calls: nat -> Calls) returns (queued: seq<bool>)
    requires w.Valid() && step.Commit? && CanStep(w.s, step) && DistinctInserts(results)
    requires forall p :: 0 <= p < |results| && results[p].inserted ==> results[p].id in step.rows
    modifies w
    ensures w.Valid() && w.Since(old(w.states), old(w.steps)) && |w.steps| > |old(w.steps)|
    ensures w.steps[|old(w.steps)|] == step
    ensures PublishedAll(w.states, w.steps, |old(w.steps)| + 1, step.rows, old(w.s).now, results, calls, queued)
  {
    w.Perform(step);
    ghost var s1 := w.s;
    queued := PublishCommitted(w, results, calls);
    forall i | 0 <= i < |results| && results[i].inserted
      ensures WholeWork(w.steps, results[i].id, DueBy(step.rows[results[i].id], old(w.s).now), calls(i), queued[i])
    {
      WorkIsWhole(old(w.states), old(w.steps), step, s1, w.steps, results[i].id, calls(i), queued[i]);
    }
  }

  /** No process has the row in hand. */
  predicate Unattended(c: Cell) {
    c.task.NoTask? && c.entries == map[] && c.msgs == map[] && c.sched.Unlocked?
  }

  /** Inserted by a request that will not publish it. */
  predicate Unanswered(s: State, n: nat) {
    n in s.cells && Unattended(s.cells[n]) && s.cells[n].row.status.Pending?
  }

  ghost predicate AllUnanswered(s: State, results: seq<Result>, n: nat)
    requires n <= |results|
  {
    forall i :: 0 <= i < n && results[i].inserted ==> Unanswered(s, results[i].id)
  }

  ghost predicate AllJustCommitted(s: State, results: seq<Result>, n: nat)
    requires n <= |results|
  {
    forall i :: n <= i < |results| && results[i].inserted ==> JustCommitted(s, results[i].id)
  }

  predicate JustCommitted(s: State, n: nat) {
    n in s.cells && s.cells[n] == NewCell(s.cells[n].row) && s.cells[n].row.status.Pending?
  }

  method LeaveRow(w: World, n: nat)
    requires w.Valid() && JustCommitted(w.s, n)
    modifies w
    ensures w.Valid() && w.steps == old(w.steps) + [Do(n, Api(Abandon))] && old(w.states) <= w.states
    ensures Unanswered(w.s, n) && forall k :: k in old(w.s).cells && k != n ==>
              k in w.s.cells && w.s.cells[k] == old(w.s).cells[k]
  {
    w.Perform(Do(n, Api(Abandon)));
  }

  method ReturnAll(w: World, results: seq<Result>)
    requires w.Valid() && DistinctInserts(results) && AllJustCommitted(w.s, results, 0)
    modifies w
    ensures w.Valid() && w.Since(old(w.states), old(w.steps)) && AllUnanswered(w.s, results, |results|)
  {
    for i := 0 to |results|
      invariant w.Valid() && w.Since(old(w.states), old(w.steps))
      invariant AllUnanswered(w.s, results, i) && AllJustCommitted(w.s, results, i)
    {
      if results[i].inserted {
        LeaveRow(w, results[i].id);
      }
    }
  }

  /** The commit took effect, but the handler was told that it failed, and returns: none of the new
      rows is published. */
  method CommitAndReturn(w: World, step: Step, results: seq<Result>)
    requires w.Valid() && step.Commit? && CanStep(w.s, step) && DistinctInserts(results)
    requires forall p :: 0 <= p < |results| && results[p].inserted ==> results[p].id in step.rows
    modifies w
    ensures w.Valid() && w.Since(old(w.states), old(w.steps)) && |w.steps| > |old(w.steps)|
    ensures w.steps[|old(w.steps)|] == step && AllUnanswered(w.s, results, |results|)
  {
    w.Perform(step);
    ReturnAll(w, results);
  }

  /** The handler up to its commit, on the tables of state s, and the commit as a step of the run. */
  method Transaction(s: State, items: seq<CreateItem>, at: int, tx: TxCalls) returns (reply: Reply, step: Step)
    requires Consistent(s)
    ensures reply.Created? <==> Commits(items, tx) && tx.commit.Fine?
    ensures Commits(items, tx) ==>
              var results := Create(Snapshot(s), items, at).1;
              && (reply.Created? || reply.Broken?) && step == CommitOf(s, items, at) && CanStep(s, step)
              && DistinctInserts(results)
              && forall p :: 0 <= p < |results| && results[p].inserted ==> results[p].id in step.rows
    ensures reply.Created? ==>
              && reply.results == Create(Snapshot(s), items, at).1
              && reply.hits == Hits(reply.results) && reply.batch == BatchOf(Snapshot(s), items)
  {
    SnapshotWellformed(s);
    var before := Snapshot(s);
    var db := new Database(before);
    reply := db.CreateNotifications(items, at, tx);
    step := Tick(0);
    if Commits(items, tx) {
      CommitAdmitted(s, items, at);
      NewRowsReported(before, items, at);
      ResultsDistinct(before, items, at);
      step := Commit(NewRows(before, db.table), Catalog(db.table.nextId, db.table.nextBatch, db.table.batches));
    }
  }

  /** From the request to the last attempt to publish, whenever it comes and whatever other requests
      came before or come meanwhile: every new row, and no other, is committed to the protocol, published
      once or left to the outbox or the scheduler, and reported queued exactly when this request's
      MarkQueued for it succeeded.  A request whose commit took effect but was reported as failed leaves
      all its new rows unattended. */
  method CreateNotifications(w: World, items: seq<CreateItem>, at: int, tx: TxCalls, calls: nat -> Calls)
    returns (reply: Reply, queued: seq<bool>)
    requires w.Valid()
    modifies w
    ensures w.Valid() && w.Since(old(w.states), old(w.steps))
    ensures reply.Created? <==> Commits(items, tx) && tx.commit.Fine?
    ensures !Commits(items, tx) ==> w.s == old(w.s)
    ensures Commits(items, tx) ==>
              && KeysUnique(old(w.s)) && |w.steps| > |old(w.steps)|
              && w.steps[|old(w.steps)|] == CommitOf(old(w.s), items, at)
    ensures Commits(items, tx) && !reply.Created? ==>
              var results := Create(Snapshot(old(w.s)), items, at).1;
              reply.Broken? && AllUnanswered(w.s, results, |results|)
    ensures reply.Created? ==>
              && reply.results == Create(Snapshot(old(w.s)), items, at).1
              && reply.hits == Hits(reply.results) && reply.batch == BatchOf(Snapshot(old(w.s)), items)
              && PublishedAll(w.states, w.steps, |old(w.steps)| + 1, CommitOf(old(w.s), items, at).rows, old(w.s).now,
                              reply.results, calls, queued)
  {
    RunConsistent(w.states, w.steps, |w.steps|);
    var step;
    reply, step := Transaction(w.s, items, at, tx);
    queued := [];
    if !Commits(items, tx) {
      return;
    }
    if reply.Created? {
      queued := CommitAndPublish(w, step, reply.results, calls);
    } else {
      CommitAndReturn(w, step, Create(Snapshot(w.s), items, at).1);
    }
  }

  // ---- sending a request again that was not answered --------------------------------------------------

  /** Nobody but its client can do anything about an unattended row without a schedule. */
  lemma OnlyCancel(c: Cell, now: int, a: Act)
    requires Unattended(c) && c.row.scheduledAt.None? && Enabled(c, now, a)
    ensures a.Cancel? && Unattended(Apply(c, now, a))
    ensures c.row.status.Pending? ==> Apply(c, now, a).row.status in {Pending, Cancelled}
  {
  }

  lemma {:induction false} UnattendedForever(states: seq<State>, steps: seq<Step>, n: nat, k: nat, j: nat)
    requires Run(states, steps) && k <= j < |states| && Unanswered(states[k], n)
    requires states[k].cells[n].row.scheduledAt.None?
    ensures n in states[j].cells && Unattended(states[j].cells[n])
    ensures states[j].cells[n].row.status in {Pending, Cancelled} && states[j].cells[n].row.scheduledAt.None?
  {
    if k < j {
      UnattendedForever(states, steps, n, k, j - 1);
      assert StepAt(states, steps, j - 1);
      StatusMachine(states, steps, k, j, n);
      if steps[j - 1].Do? && steps[j - 1].n == n {
        OnlyCancel(states[j - 1].cells[n], states[j - 1].now, steps[j - 1].act);
      }
    }
  }

  lemma UnattendedStranded(c: Cell)
    requires Unattended(c) && c.row.status.Pending?
    ensures Stranded(c) <==> c.row.scheduledAt.None?
  {
    assert Carries(c, BySchedule) <==> c.row.scheduledAt.Some?;
  }

  lemma CommittedAs(states: seq<State>, steps: seq<Step>, i: nat, items: seq<CreateItem>, at: int, p: nat)
    requires Run(states, steps) && i < |steps| && Acceptable(items) && p < |items|
    requires KeysUnique(states[i]) && steps[i] == CommitOf(states[i], items, at)
    ensures
      var first := Create(Snapshot(states[i]), items, at).1[p];
      first.inserted ==>
        first.id in states[i + 1].cells && states[i + 1].cells[first.id].row.scheduledAt == items[p].scheduledAt
  {
    RunConsistent(states, steps, i);
    SnapshotWellformed(states[i]);
    CreatedRow(Snapshot(states[i]), items, at, p);
    CreatedAt(states, steps, i, items, at);
  }

  lemma StrandedFrom(states: seq<State>, steps: seq<Step>, n: nat, k: nat, j: nat)
    requires Run(states, steps) && k <= j < |states| && Unanswered(states[k], n)
    ensures Stranded(states[k].cells[n]) <==> states[k].cells[n].row.scheduledAt.None?
    ensures Stranded(states[k].cells[n]) ==>
              && n in states[j].cells && states[j].cells[n].msgs == map[]
              && (states[j].cells[n].row.status.Cancelled? || Stranded(states[j].cells[n]))
  {
    UnattendedStranded(states[k].cells[n]);
    if Stranded(states[k].cells[n]) {
      UnattendedForever(states, steps, n, k, j);
      if states[j].cells[n].row.status.Pending? {
        UnattendedStranded(states[j].cells[n]);
      }
    }
  }

  /** Idempotency keys do not repair a lost answer.  When a fully keyed request took effect unanswered,
      sending it again, at any later time, inserts nothing, so nothing is published, and answers with
      the ids of the first time; and a row is stranded in every later state, until it is cancelled,
      exactly when it has no schedule. */
  lemma LostAnswer(
    states: seq<State>, steps: seq<Step>, i: nat, k: nat, j: nat, items: seq<CreateItem>, at: int, at2: int, p: nat)
    requires Run(states, steps) && i < k <= j < |states| && Acceptable(items) && Keyed(items) && p < |items|
    requires KeysUnique(states[i]) && steps[i] == CommitOf(states[i], items, at)
    requires
      var first := Create(Snapshot(states[i]), items, at).1[p];
      first.inserted && Unanswered(states[k], first.id)
    ensures KeysUnique(states[j]) && CommitOf(states[j], items, at2).rows == map[]
    ensures
      var id := Create(Snapshot(states[i]), items, at).1[p].id;
      && Create(Snapshot(states[j]), items, at2).1[p] == Result(id, false)
      && (Stranded(states[k].cells[id]) <==> items[p].scheduledAt.None?)
      && (items[p].scheduledAt.None? ==>
            id in states[j].cells && states[j].cells[id].msgs == map[]
            && (states[j].cells[id].row.status.Cancelled? || Stranded(states[j].cells[id])))
  {
    var id := Create(Snapshot(states[i]), items, at).1[p].id;
    ReplayInRun(states, steps, i, j, items, at, at2);
    CommittedAs(states, steps, i, items, at, p);
    StatusMachine(states, steps, i + 1, k, id);
    StrandedFrom(states, steps, id, k, j);
  }
}
