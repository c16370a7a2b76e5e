/** The guarantees of quiet runs: no database error and no process death. */
module QuietTheorems {
  import opened Domain
  import opened Protocol
  import opened Runs
  import opened Safety
  import opened Coverage
  import opened Lineage
  import opened Quiet
  import opened Tallies
  import opened Theorems

  ghost predicate QuietDb(steps: seq<Step>) {
    forall i :: 0 <= i < |steps| && steps[i].Do? ==> QuietAct(steps[i].act)
  }

  lemma QuietMeansNoCrash(steps: seq<Step>)
    requires QuietDb(steps)
    ensures NoCrashes(steps) && NoZombies(steps)
  {
  }

  ghost predicate AllQuiet(s: State) {
    forall n :: n in s.cells ==> QuietInv(s.cells[n])
  }

  lemma RunSound(states: seq<State>, steps: seq<Step>, i: nat)
    requires Run(states, steps) && QuietDb(steps) && i < |states|
    ensures AllSafe(states[i]) && AllCovered(states[i]) && AllTraced(states[i])
  {
    QuietMeansNoCrash(steps);
    RunSafe(states, steps, i);
    RunCovered(states, steps, i);
    RunTraced(states, steps, i);
  }

  lemma {:induction false} RunQuiet(states: seq<State>, steps: seq<Step>, i: nat)
    requires Run(states, steps) && QuietDb(steps) && i < |states|
    ensures AllQuiet(states[i])
  {
    if i > 0 {
      RunSound(states, steps, i - 1);
      RunQuiet(states, steps, i - 1);
      assert StepAt(states, steps, i - 1);
      NextIsQuiet(states[i - 1], steps[i - 1], states[i]);
    }
  }

  lemma NextIsQuiet(s: State, step: Step, s': State)
    requires AllSafe(s) && AllCovered(s) && AllTraced(s) && AllQuiet(s)
    requires CanStep(s, step) && s' == Next(s, step) && (step.Do? ==> QuietAct(step.act))
    ensures AllQuiet(s')
  {
    StepStaysQuiet(s, step);
  }

  lemma StepStaysQuiet(s: State, step: Step)
    requires AllSafe(s) && AllCovered(s) && AllTraced(s) && AllQuiet(s) && CanStep(s, step)
    requires step.Do? ==> QuietAct(step.act)
    ensures AllQuiet(Next(s, step))
  {
    match step
    case Commit(rows, _) =>
      forall n | n in rows ensures QuietInv(NewCell(rows[n])) {
        NewIsQuiet(rows[n]);
      }
    case Tick(_) =>
    case Do(n, a) => StepIsQuiet(s.cells[n], s.now, a);
  }

  lemma CellQuiet(states: seq<State>, steps: seq<Step>, i: nat, n: nat)
    requires Run(states, steps) && QuietDb(steps) && i < |states| && n in states[i].cells
    ensures Safe(states[i].cells[n], states[i].now) && Covered(states[i].cells[n])
    ensures Traced(states[i].cells[n]) && QuietInv(states[i].cells[n])
  {
    RunSound(states, steps, i);
    RunQuiet(states, steps, i);
  }

  /** When the API captured its clock for n, the schedule of n had already passed. */
  ghost predicate DueAtCheck(states: seq<State>, steps: seq<Step>, n: nat, i: nat)
    requires Run(states, steps) && i <= |steps|
  {
    exists j :: 0 <= j < i && steps[j] == Do(n, Api(TakeTime)) && PassedSchedule(states[j], n)
  }

  predicate PassedSchedule(s: State, n: nat) {
    n in s.cells && s.cells[n].row.scheduledAt.Some? && s.cells[n].row.scheduledAt.value <= s.now
  }

  predicate CheckOk(c: Cell, now: int, e: Effect, a: Act) {
    && (a == Api(TakeTime) ==> c.task.ToClock? && e.book.dueAtCheck == (c.row.scheduledAt.Some? && DueBy(c.row, now)))
    && (a != Api(TakeTime) ==> e.book.dueAtCheck == c.book.dueAtCheck && (e.task.ToClock? ==> c.task.ToClock?))
    && (a == Api(TakeTime) ==> !e.task.ToClock?)
  }

  lemma CheckStep(c: Cell, now: int, a: Act)
    requires Enabled(c, now, a)
    ensures CheckOk(c, now, EffectOf(c, now, a), a)
  {
    match a {
      case Api(_) =>
      case Relay(_, _) =>
      case Sched(_) =>
      case Cancel(_) =>
      case _ => WorkersHandNothing(c, now, a);
    }
  }

  lemma {:induction false} CheckRecorded(states: seq<State>, steps: seq<Step>, n: nat, i: nat)
    requires Run(states, steps) && i < |states| && n in states[i].cells
    ensures states[i].cells[n].book.dueAtCheck <==> DueAtCheck(states, steps, n, i)
    ensures DueAtCheck(states, steps, n, i) ==> !states[i].cells[n].task.ToClock?
  {
    assert i > 0;
    assert StepAt(states, steps, i - 1);
    if n in states[i - 1].cells {
      CheckRecorded(states, steps, n, i - 1);
      CellStep(states, steps, n, i);
      if steps[i - 1].Do? && steps[i - 1].n == n {
        CheckStep(states[i - 1].cells[n], states[i - 1].now, steps[i - 1].act);
        assert steps[i - 1].act == Api(TakeTime) ==> steps[i - 1] == Do(n, Api(TakeTime));
      }
    } else {
      forall j | 0 <= j < i - 1 ensures n !in states[j].cells {
        if n in states[j].cells {
          StatusMachine(states, steps, j, i - 1, n);
        }
      }
    }
  }

  /** Publish bound: in quiet runs the API and the relay together publish a notification at most
      once, the scheduler at most once, and both only if its schedule had passed when the API looked. */
  lemma PublishedOnce(states: seq<State>, steps: seq<Step>, n: nat, i: nat)
    requires Run(states, steps) && QuietDb(steps) && i < |states| && n in states[i].cells
    ensures Tally(states, steps, HandedPublish, n, i) <= 1
    ensures Tally(states, steps, ScheduledPublish, n, i) <= 1
    ensures !DueAtCheck(states, steps, n, i) ==> Publishes(states, steps, n, i) <= 1
  {
    CellQuiet(states, steps, i, n);
    BooksTally(states, steps, n, i);
    CheckRecorded(states, steps, n, i);
    PublishBound(states[i].cells[n], states[i].now);
  }

  /** Coverage: in quiet runs nothing is lost.  Every unfinished row has a carrier, and a queued
      or sending one has a live message, however its copies were acked, requeued or dead-lettered. */
  lemma NothingLost(states: seq<State>, steps: seq<Step>, n: nat, i: nat)
    requires Run(states, steps) && QuietDb(steps) && i < |states| && n in states[i].cells
    requires !Terminal(states[i].cells[n].row.status)
    ensures exists k :: Carries(states[i].cells[n], k)
    ensures InFlight(states[i].cells[n].row.status) ==> exists m :: Alive(states[i].cells[n], m)
  {
    CellQuiet(states, steps, i, n);
    var c := states[i].cells[n];
    var k := CoveredHasCarrier(c, states[i].now);
    if InFlight(c.row.status) {
      assert Alive(c, c.book.owner.value);
    }
  }

  /** Token conservation: a notification whose schedule had not passed when the API looked has
      exactly one carrier while it is unfinished. */
  lemma ExactlyOneCarrier(states: seq<State>, steps: seq<Step>, n: nat, i: nat)
    requires Run(states, steps) && QuietDb(steps) && i < |states| && n in states[i].cells
    requires !DueAtCheck(states, steps, n, i) && !Terminal(states[i].cells[n].row.status)
    ensures exists k :: Carries(states[i].cells[n], k) && forall k' :: Carries(states[i].cells[n], k') ==> k' == k
  {
    CellQuiet(states, steps, i, n);
    CheckRecorded(states, steps, n, i);
    var c := states[i].cells[n];
    var k := CoveredHasCarrier(c, states[i].now);
    forall k' | Carries(c, k') ensures k' == k {
      OneCarrier(c, states[i].now, k', k);
    }
  }

  /** ... and at most one live broker message at any time, finished or not. */
  lemma OneLiveMessage(states: seq<State>, steps: seq<Step>, n: nat, i: nat, m1: nat, m2: nat)
    requires Run(states, steps) && QuietDb(steps) && i < |states| && n in states[i].cells
    requires !DueAtCheck(states, steps, n, i)
    requires Alive(states[i].cells[n], m1) && Alive(states[i].cells[n], m2)
    ensures m1 == m2
  {
    QuietMeansNoCrash(steps);
    PublishedOnce(states, steps, n, i);
    OneLiveCopy(states, steps, n, i, m1, m2);
  }

  /** With one publish so far, from a worker's claim until its own next transition of the row, or
      its republish, the row stays sending. */
  lemma ClaimHolds(states: seq<State>, steps: seq<Step>, n: nat, i: nat, m: nat)
    requires Run(states, steps) && QuietDb(steps) && i < |states| && n in states[i].cells
    requires Publishes(states, steps, n, i) <= 1
    requires m in states[i].cells[n].msgs && Running(states[i].cells[n].msgs[m].loc)
    requires Sends(states[i].cells[n].msgs[m].loc.pc)
    ensures states[i].cells[n].row.status.Sending?
  {
    CellQuiet(states, steps, i, n);
    OneRoot(states, steps, n, i);
    assert Alive(states[i].cells[n], m);
  }

  /** Cancel safety: once a cancel has succeeded, no webhook post begins for a row published once. */
  lemma NeverPostedAfterCancel(states: seq<State>, steps: seq<Step>, n: nat, i: nat, j: nat)
    requires Run(states, steps) && QuietDb(steps) && i <= j < |steps| && n in states[i].cells
    requires states[i].cells[n].row.status.Cancelled? && Publishes(states, steps, n, j) <= 1
    ensures !(steps[j].Do? && steps[j].n == n && steps[j].act.Send? && steps[j].act.p.BeginPost?)
  {
    assert StepAt(states, steps, j);
    StatusMachine(states, steps, i, j, n);
    if steps[j].Do? && steps[j].n == n && steps[j].act.Send? && steps[j].act.p.BeginPost? {
      ClaimHolds(states, steps, n, j, steps[j].act.m);
    }
  }
}
