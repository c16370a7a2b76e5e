/** The protocol's guarantees, stated over whole runs. */
module Theorems {
  import opened Domain
  import opened Protocol
  import opened Runs
  import opened Safety
  import opened Coverage
  import opened Lineage
  import opened Quiet
  import opened Tallies

  ghost predicate AllSafe(s: State) {
    forall n :: n in s.cells ==> Safe(s.cells[n], s.now)
  }

  lemma {:induction false} RunSafe(states: seq<State>, steps: seq<Step>, i: nat)
    requires Run(states, steps) && i < |states|
    ensures AllSafe(states[i])
  {
    if i > 0 {
      assert StepAt(states, steps, i - 1);
      RunSafe(states, steps, i - 1);
      var s, s', step := states[i - 1], states[i], steps[i - 1];
      forall n | n in s'.cells ensures Safe(s'.cells[n], s'.now) {
        match step
        case Commit(rows, _) => if n in rows { NewIsSafe(rows[n], s.now); }
        case Tick(d) =>
        case Do(k, a) => if n == k { StepIsSafe(s.cells[n], s.now, a); }
      }
    }
  }

  // ---- every run -----------------------------------------------------------------------------

  lemma CellSafe(states: seq<State>, steps: seq<Step>, i: nat, n: nat)
    requires Run(states, steps) && i < |states| && n in states[i].cells
    ensures Safe(states[i].cells[n], states[i].now)
  {
    RunSafe(states, steps, i);
  }

  /** Status machine: finished rows never change again in any field, pending is never
      re-entered, and a provider message id is set once, together with delivered. */
  lemma {:induction false} StatusMachine(states: seq<State>, steps: seq<Step>, i: nat, j: nat, n: nat)
    requires Run(states, steps) && i <= j < |states| && n in states[i].cells
    ensures n in states[j].cells && RowMoves(states[i].cells[n].row, states[j].cells[n].row)
  {
    if i < j {
      StatusMachine(states, steps, i, j - 1, n);
      CellSafe(states, steps, j - 1, n);
      CellStep(states, steps, n, j);
      if steps[j - 1].Do? && steps[j - 1].n == n {
        StepIsSafe(states[j - 1].cells[n], states[j - 1].now, steps[j - 1].act);
      }
    }
  }

  /** The record of a lineage is the count of its steps in the run. */
  lemma {:induction false} RootsTally(states: seq<State>, steps: seq<Step>, k: Kind, n: nat, i: nat)
    requires Run(states, steps) && i < |states| && n in states[i].cells && OfLineage(k)
    ensures Recorded(RootAt(states[i].cells[n], k.r), k) == Tally(states, steps, k, n, i)
  {
    assert i > 0;
    if n in states[i - 1].cells {
      RootsTally(states, steps, k, n, i - 1);
      var c, step := states[i - 1].cells[n], steps[i - 1];
      CellStep(states, steps, n, i);
      if step.Do? && step.n == n {
        CellSafe(states, steps, i - 1, n);
        RecordedStep(c, states[i - 1].now, step.act, k);
      }
    } else {
      Birth(states, steps, n, i);
      Unborn(states, steps, k, n, 0, i - 1);
      assert RootAt(states[i].cells[n], k.r) == NEW_ROOT;
    }
  }

  /** A delivery is recorded, and announced, at most once; only a delivered row is announced or has a
      provider message id. */
  lemma DeliveredOnce(states: seq<State>, steps: seq<Step>, n: nat, i: nat)
    requires Run(states, steps) && i < |states| && n in states[i].cells
    ensures Tally(states, steps, DeliveredEvent, n, i) <= Tally(states, steps, DeliveryReported, n, i) <= 1
    ensures Tally(states, steps, DeliveryReported, n, i) == 1 ==> states[i].cells[n].row.status.Delivered?
    ensures states[i].cells[n].row.provider.Some? ==> states[i].cells[n].row.status.Delivered?
    ensures i < |steps| && Does(states, steps, i, n) && Happens(DeliveredEvent, states[i].cells[n], steps[i].act) ==>
              states[i].cells[n].row.status.Delivered?
  {
    assert i < |steps| ==> StepAt(states, steps, i);
    BooksTally(states, steps, n, i);
    CellSafe(states, steps, i, n);
  }

  /** No message is published, for the first time or again, and no webhook is posted before the
      notification's schedule. */
  lemma NeverEarly(states: seq<State>, steps: seq<Step>, n: nat, i: nat)
    requires Run(states, steps) && i < |steps| && Does(states, steps, i, n)
    requires
      || Happens(HandedPublish, states[i].cells[n], steps[i].act)
      || Happens(ScheduledPublish, states[i].cells[n], steps[i].act)
      || (steps[i].act.Leave? && steps[i].act.l == Republish(true))
      || (steps[i].act.Send? && steps[i].act.p.BeginPost?)
    ensures DueBy(states[i].cells[n].row, states[i].now)
  {
    assert StepAt(states, steps, i);
    CellSafe(states, steps, i, n);
    var c, a := states[i].cells[n], steps[i].act;
    if a.Send? || a.Leave? {
      assert c.msgs[a.m].root in c.roots;
    }
  }

  lemma RetriesBounded(states: seq<State>, steps: seq<Step>, n: nat, i: nat, m: nat)
    requires Run(states, steps) && i < |states| && n in states[i].cells && m in states[i].cells[n].msgs
    ensures states[i].cells[n].msgs[m].retry <= MAX_WEBHOOK_RETRIES
  {
    CellSafe(states, steps, i, n);
  }

  /** The row lock: from a scheduler's claim until its transaction ends the row stays pending, so
      its check passes and its commit, when it takes effect, queues the row. */
  lemma SchedulerLock(states: seq<State>, steps: seq<Step>, n: nat, i: nat)
    requires Run(states, steps) && i < |steps| && Does(states, steps, i, n) && steps[i].act.Sched?
    requires !steps[i].act.s.SClaim?
    ensures states[i].cells[n].row.status.Pending? && states[i].cells[n].row.scheduledAt.Some?
    ensures steps[i].act.s == SCommit(Fine) ==> n in states[i + 1].cells && states[i + 1].cells[n].row.status.Queued?
  {
    assert StepAt(states, steps, i);
    CellSafe(states, steps, i, n);
  }

  /** Duplicate bound, in every run: the webhook answers 2xx at most once per successful initial
      publish, and once more for each worker that died or lost its connection while handling it; and
      every message that may still be posted leaves one of these unused. */
  lemma {:induction false} DuplicateBound(states: seq<State>, steps: seq<Step>, n: nat, i: nat)
    requires Run(states, steps) && i < |states| && n in states[i].cells
    ensures Tally(states, steps, AcceptedPost, n, i) + |Chances(states[i].cells[n])|
            <= Publishes(states, steps, n, i) + Tally(states, steps, WorkerGone, n, i)
  {
    assert i > 0;
    Birth(states, steps, n, i);
    if n in states[i - 1].cells {
      DuplicateBound(states, steps, n, i - 1);
      CellStep(states, steps, n, i);
      if steps[i - 1].Do? && steps[i - 1].n == n {
        CellSafe(states, steps, i - 1, n);
        StepChances(states[i - 1].cells[n], states[i - 1].now, steps[i - 1].act);
      }
    } else {
      Unborn(states, steps, AcceptedPost, n, 0, i - 1);
      assert Chances(states[i].cells[n]) == {};
    }
  }

  lemma {:induction false} NoneGone(states: seq<State>, steps: seq<Step>, n: nat, i: nat)
    requires Run(states, steps) && NoCrashes(steps) && i < |states|
    ensures Tally(states, steps, WorkerGone, n, i) == 0
  {
    if i > 0 {
      NoneGone(states, steps, n, i - 1);
    }
  }

  // ---- database faults, and crashes of any process ---------------------------------------------

  ghost predicate NoZombies(steps: seq<Step>) {
    forall i :: 0 <= i < |steps| && steps[i].Do? ==> !Zombie(steps[i].act)
  }

  ghost predicate AllCovered(s: State) {
    forall n :: n in s.cells ==> Covered(s.cells[n])
  }

  lemma {:induction false} RunCovered(states: seq<State>, steps: seq<Step>, i: nat)
    requires Run(states, steps) && NoZombies(steps) && i < |states|
    ensures AllCovered(states[i])
  {
    if i > 0 {
      assert StepAt(states, steps, i - 1);
      RunCovered(states, steps, i - 1);
      RunSafe(states, steps, i - 1);
      var s, s', step := states[i - 1], states[i], steps[i - 1];
      forall n | n in s'.cells ensures Covered(s'.cells[n]) {
        match step
        case Commit(rows, _) => assert n in rows || n in s.cells;
        case Tick(_) =>
        case Do(k, a) => if n == k { StepIsCovered(s.cells[n], s.now, a); }
      }
    }
  }

  /** At step j a drop point was passed where n was given up. */
  ghost predicate Dropped(states: seq<State>, steps: seq<Step>, n: nat, j: nat)
    requires Run(states, steps) && j < |steps|
  {
    && Does(states, steps, j, n) && n in states[j + 1].cells
    && DropPoint(states[j].cells[n], steps[j].act)
    && !states[j].cells[n].book.lost && states[j + 1].cells[n].book.lost
  }

  /** In all states after step j up to i, nothing has taken n up again. */
  ghost predicate StaysLost(states: seq<State>, n: nat, j: nat, i: nat) {
    forall k :: j < k <= i && k < |states| ==> n in states[k].cells && states[k].cells[n].book.lost
  }

  /** A row counted as lost was given up at a drop point and not taken up since. */
  lemma {:induction false} LossHappened(states: seq<State>, steps: seq<Step>, n: nat, i: nat) returns (j: nat)
    requires Run(states, steps) && NoZombies(steps) && i < |states| && n in states[i].cells
    requires states[i].cells[n].book.lost
    ensures j < i && Dropped(states, steps, n, j) && StaysLost(states, n, j, i)
  {
    j := i - 1;
    assert StepAt(states, steps, j);
    if n in states[j].cells {
      CellStep(states, steps, n, i);
      if states[j].cells[n].book.lost {
        j := LossHappened(states, steps, n, j);
      } else {
        CellSafe(states, steps, j, n);
        RunCovered(states, steps, j);
        LossNeedsDropPoint(states[j].cells[n], states[j].now, steps[j].act);
      }
    }
  }

  /** A worker's successful claim takes the row up again. */
  lemma ClaimTakesUp(states: seq<State>, steps: seq<Step>, n: nat, j: nat)
    requires Run(states, steps) && NoZombies(steps) && j < |steps| && Does(states, steps, j, n)
    requires steps[j].act.Take? && steps[j].act.k.MarkSending?
    requires Reported(ToSending, states[j].cells[n].row, steps[j].act.k.db)
    ensures n in states[j + 1].cells && !states[j + 1].cells[n].book.lost
  {
    RunCovered(states, steps, j);
    CellStep(states, steps, n, j + 1);
  }

  /** Loss accounting: an unfinished row is carried by something, unless it was given up at one of the
      enumerated drop points and no worker has claimed it since. */
  lemma LossAccounting(states: seq<State>, steps: seq<Step>, n: nat, i: nat)
    requires Run(states, steps) && NoZombies(steps) && i < |states| && n in states[i].cells
    ensures Terminal(states[i].cells[n].row.status)
         || (exists k :: Carries(states[i].cells[n], k))
         || (exists j :: 0 <= j < i && Dropped(states, steps, n, j) && StaysLost(states, n, j, i))
  {
    var c := states[i].cells[n];
    if c.book.lost {
      var j := LossHappened(states, steps, n, i);
    } else if !Terminal(c.row.status) {
      CellSafe(states, steps, i, n);
      RunCovered(states, steps, i);
      var k := CoveredHasCarrier(c, states[i].now);
    }
  }

  /** Step j takes the last carrier of n. */
  ghost predicate Strands(states: seq<State>, steps: seq<Step>, n: nat, j: nat)
    requires Run(states, steps) && j < |steps|
  {
    && Does(states, steps, j, n) && n in states[j + 1].cells
    && !Stranded(states[j].cells[n]) && Stranded(states[j + 1].cells[n])
  }

  /** Every stranded row lost its last carrier at one step, and has had none since. */
  lemma {:induction false} StrandedSince(states: seq<State>, steps: seq<Step>, n: nat, i: nat) returns (j: nat)
    requires Run(states, steps) && i < |states| && n in states[i].cells && Stranded(states[i].cells[n])
    ensures j < i && Strands(states, steps, n, j)
    ensures forall k :: j < k <= i ==> n in states[k].cells && Stranded(states[k].cells[n])
  {
    j := i - 1;
    Birth(states, steps, n, i);
    if n in states[j].cells {
      CellStep(states, steps, n, i);
      if Stranded(states[j].cells[n]) {
        j := StrandedSince(states, steps, n, j);
      }
    } else {
      NewIsCarried(states[i].cells[n].row);
    }
  }

  lemma NewIsCarried(row: Row)
    requires row.status.Pending?
    ensures !Stranded(NewCell(row))
  {
    assert Carries(NewCell(row), if row.scheduledAt.Some? then BySchedule else ByTask);
  }

  lemma {:induction false} RunHandsOnce(states: seq<State>, steps: seq<Step>, n: nat, i: nat)
    requires Run(states, steps) && i < |states| && n in states[i].cells
    ensures HandedOnce(states[i].cells[n])
  {
    assert i > 0;
    Birth(states, steps, n, i);
    if n in states[i - 1].cells {
      RunHandsOnce(states, steps, n, i - 1);
      CellSafe(states, steps, i - 1, n);
      CellStep(states, steps, n, i);
      if steps[i - 1].Do? && steps[i - 1].n == n {
        StepHandsOnce(states[i - 1].cells[n], states[i - 1].now, steps[i - 1].act);
      }
    }
  }

  /** The step that strands a row is one where a worker or the API gives it up, or one that queues it
      for a dead copy, or an outbox entry that comes too late; for a row without a schedule it is one
      where it is given up. */
  lemma StrandedWhere(states: seq<State>, steps: seq<Step>, n: nat, j: nat)
    requires Run(states, steps) && NoZombies(steps) && j < |steps| && Strands(states, steps, n, j)
    ensures MayStrand(states[j].cells[n], steps[j].act)
    ensures states[j].cells[n].row.scheduledAt.None? ==> GivesUp(states[j].cells[n], steps[j].act)
  {
    CellSafe(states, steps, j, n);
    RunCovered(states, steps, j);
    RunHandsOnce(states, steps, n, j);
    CellStep(states, steps, n, j + 1);
    StrandingStep(states[j].cells[n], states[j].now, steps[j].act);
    if states[j].cells[n].row.scheduledAt.None? {
      UnscheduledStrandingStep(states[j].cells[n], states[j].now, steps[j].act);
    }
  }

  // ---- database faults, no worker crash ----------------------------------------------------------

  ghost predicate NoCrashes(steps: seq<Step>) {
    forall i :: 0 <= i < |steps| && steps[i].Do? ==> !Crashing(steps[i].act)
  }

  ghost predicate AllTraced(s: State) {
    forall n :: n in s.cells ==> Traced(s.cells[n])
  }

  lemma {:induction false} RunTraced(states: seq<State>, steps: seq<Step>, i: nat)
    requires Run(states, steps) && NoCrashes(steps) && i < |states|
    ensures AllTraced(states[i])
  {
    if i > 0 {
      assert StepAt(states, steps, i - 1);
      RunTraced(states, steps, i - 1);
      RunSafe(states, steps, i - 1);
      RunCovered(states, steps, i - 1);
      var s, s', step := states[i - 1], states[i], steps[i - 1];
      forall n | n in s'.cells ensures Traced(s'.cells[n]) {
        match step
        case Commit(rows, _) => assert n in rows || n in s.cells;
        case Tick(_) =>
        case Do(k, a) => if n == k { StepIsTraced(s.cells[n], s.now, a); }
      }
    }
  }

  lemma AcceptedStep(c: Cell, now: int, a: Act)
    requires Safe(c, now) && NoOrphans(c) && Traced(c) && Enabled(c, now, a)
    ensures |AcceptedRoots(Apply(c, now, a))| == |AcceptedRoots(c)| + One(Happens(AcceptedPost, c, a))
  {
    StepRoot(c, now, a);
    if Happens(AcceptedPost, c, a) {
      assert Alive(c, a.m);
    }
    AcceptedInstall(c, EffectOf(c, now, a), a);
  }

  lemma {:induction false} AcceptedTally(states: seq<State>, steps: seq<Step>, n: nat, i: nat)
    requires Run(states, steps) && NoCrashes(steps) && i < |states| && n in states[i].cells
    ensures Tally(states, steps, AcceptedPost, n, i) == |AcceptedRoots(states[i].cells[n])|
  {
    assert i > 0;
    if n in states[i - 1].cells {
      AcceptedTally(states, steps, n, i - 1);
      CellStep(states, steps, n, i);
      if steps[i - 1].Do? && steps[i - 1].n == n {
        CellSafe(states, steps, i - 1, n);
        RunCovered(states, steps, i - 1);
        RunTraced(states, steps, i - 1);
        AcceptedStep(states[i - 1].cells[n], states[i - 1].now, steps[i - 1].act);
      }
    } else {
      Birth(states, steps, n, i);
      Unborn(states, steps, AcceptedPost, n, 0, i - 1);
      assert AcceptedRoots(states[i].cells[n]) == {};
    }
  }

  /** Retry lineage: posts made for one initial publish are bounded by six plus the releases that
      requeued it, and its deliveries to workers by six plus all its requeues. */
  lemma LineageBounds(states: seq<State>, steps: seq<Step>, n: nat, i: nat, r: nat)
    requires Run(states, steps) && NoCrashes(steps) && i < |states| && n in states[i].cells
    requires r in states[i].cells[n].roots
    ensures
      var reverts := Tally(states, steps, RevertOf(r), n, i);
      && Tally(states, steps, PostOf(r), n, i) <= 6 + reverts
      && Tally(states, steps, RepublishOf(r), n, i) <= 5
      && Tally(states, steps, HandlingOf(r), n, i) <= 6 + reverts + Tally(states, steps, LimitedOf(r), n, i)
  {
    RunTraced(states, steps, i);
    RootsTally(states, steps, PostOf(r), n, i);
    RootsTally(states, steps, RepublishOf(r), n, i);
    RootsTally(states, steps, RevertOf(r), n, i);
    RootsTally(states, steps, HandlingOf(r), n, i);
    RootsTally(states, steps, LimitedOf(r), n, i);
  }

  /** While the lineage waits in a queue, its transient posts are exactly its retry count plus the
      releases that requeued it, and it was handled once more for every rate-limit requeue. */
  lemma LineageBalance(states: seq<State>, steps: seq<Step>, n: nat, i: nat, m: nat)
    requires Run(states, steps) && NoCrashes(steps) && i < |states| && n in states[i].cells
    requires m in states[i].cells[n].msgs && states[i].cells[n].msgs[m].loc.InQueue?
    ensures
      var msg := states[i].cells[n].msgs[m];
      var r := msg.root;
      && Tally(states, steps, TransientOf(r), n, i) == msg.retry + Tally(states, steps, RevertOf(r), n, i)
      && Tally(states, steps, PostOf(r), n, i) == Tally(states, steps, TransientOf(r), n, i)
      && Tally(states, steps, HandlingOf(r), n, i) ==
           msg.retry + Tally(states, steps, RevertOf(r), n, i) + Tally(states, steps, LimitedOf(r), n, i)
  {
    RunTraced(states, steps, i);
    CellSafe(states, steps, i, n);
    var c := states[i].cells[n];
    var r := c.msgs[m].root;
    assert Alive(c, m);
    RootsTally(states, steps, PostOf(r), n, i);
    RootsTally(states, steps, TransientOf(r), n, i);
    RootsTally(states, steps, RevertOf(r), n, i);
    RootsTally(states, steps, HandlingOf(r), n, i);
    RootsTally(states, steps, LimitedOf(r), n, i);
  }

  lemma {:induction false} SleepsTally(states: seq<State>, steps: seq<Step>, n: nat, r: nat, i: nat)
    requires Run(states, steps) && i < |states| && n in states[i].cells
    ensures RootAt(states[i].cells[n], r).slept == SleepTally(states, steps, n, r, i)
  {
    assert i > 0;
    if n in states[i - 1].cells {
      SleepsTally(states, steps, n, r, i - 1);
      CellStep(states, steps, n, i);
      if steps[i - 1].Do? && steps[i - 1].n == n {
        CellSafe(states, steps, i - 1, n);
        SleptStep(states[i - 1].cells[n], states[i - 1].now, steps[i - 1].act, r);
      }
    } else {
      Birth(states, steps, n, i);
      Unborn(states, steps, AcceptedPost, n, r, i - 1);
    }
  }

  /** A lineage that is never released and uses all its retries, because it was republished five
      times or posted six times, sleeps at least 7750 ms and less than 8000 ms in all its backoffs,
      whether it is still going on or has ended. */
  lemma SleptLong(states: seq<State>, steps: seq<Step>, n: nat, i: nat, r: nat)
    requires Run(states, steps) && NoCrashes(steps) && i < |states| && n in states[i].cells
    requires Tally(states, steps, RevertOf(r), n, i) == 0
    requires Tally(states, steps, RepublishOf(r), n, i) >= 5 || Tally(states, steps, PostOf(r), n, i) >= 6
    ensures 7_750_000_000 <= SleepTally(states, steps, n, r, i) < 8_000_000_000
  {
    RunTraced(states, steps, i);
    RootsTally(states, steps, RevertOf(r), n, i);
    RootsTally(states, steps, RepublishOf(r), n, i);
    RootsTally(states, steps, PostOf(r), n, i);
    SleepsTally(states, steps, n, r, i);
    assert r in states[i].cells[n].roots;
    BackoffTotals();
  }

  /** Published at most once, a notification has at most one live broker message, whatever the
      database does. */
  lemma OneLiveCopy(states: seq<State>, steps: seq<Step>, n: nat, i: nat, m1: nat, m2: nat)
    requires Run(states, steps) && NoCrashes(steps) && i < |states| && n in states[i].cells
    requires Publishes(states, steps, n, i) <= 1
    requires Alive(states[i].cells[n], m1) && Alive(states[i].cells[n], m2)
    ensures m1 == m2
  {
    RunTraced(states, steps, i);
    OneRoot(states, steps, n, i);
    CellSafe(states, steps, i, n);
  }

  lemma OneRoot(states: seq<State>, steps: seq<Step>, n: nat, i: nat)
    requires Run(states, steps) && i < |states| && n in states[i].cells
    requires Publishes(states, steps, n, i) <= 1
    ensures OneCopy(states[i].cells[n])
  {
    BooksTally(states, steps, n, i);
    CellSafe(states, steps, i, n);
    FewRoots(states[i].cells[n]);
  }
}
