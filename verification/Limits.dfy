/** Exactly when the guarantees can fail, for every notification a request can insert. */
module Limits {
  import opened Domain
  import opened Protocol
  import opened Runs
  import opened Safety
  import opened Coverage
  import opened Lineage
  import opened Quiet
  import opened QuietTheorems
  import opened Theorems
  import opened Tallies
  import opened Witnesses

  /** Step k inserts row as notification n. */
  ghost predicate InsertsRow(steps: seq<Step>, k: nat, n: nat, row: Row) {
    k < |steps| && steps[k].Commit? && n in steps[k].rows && steps[k].rows[n] == row
  }

  lemma InsertedRow(states: seq<State>, steps: seq<Step>, k: nat, n: nat, row: Row, i: nat)
    requires Run(states, steps) && InsertsRow(steps, k, n, row) && i < |states|
    ensures i <= k ==> n !in states[i].cells
    ensures i > k ==> n in states[i].cells && RowMoves(row, states[i].cells[n].row)
  {
    assert StepAt(states, steps, k);
    if i <= k {
      if n in states[i].cells {
        StatusMachine(states, steps, i, k, n);
      }
    } else {
      StatusMachine(states, steps, k + 1, i, n);
    }
  }

  /** A row without a schedule is never due at the API's check. */
  lemma NeverDue(states: seq<State>, steps: seq<Step>, k: nat, n: nat, row: Row, i: nat)
    requires Run(states, steps) && InsertsRow(steps, k, n, row) && row.scheduledAt.None? && i <= |steps|
    ensures !DueAtCheck(states, steps, n, i)
  {
    forall j | 0 <= j < i ensures !PassedSchedule(states[j], n) {
      InsertedRow(states, steps, k, n, row, j);
    }
  }

  lemma PublishedAtMostOnce(states: seq<State>, steps: seq<Step>, k: nat, n: nat, row: Row, i: nat)
    requires Run(states, steps) && QuietDb(steps) && InsertsRow(steps, k, n, row) && row.scheduledAt.None?
    requires k < i < |states|
    ensures Publishes(states, steps, n, i) <= 1
  {
    InsertedRow(states, steps, k, n, row, i);
    NeverDue(states, steps, k, n, row, i);
    PublishedOnce(states, steps, n, i);
  }

  /** A time at which the row's schedule, if any, has passed. */
  function DueTime(row: Row): int {
    if row.scheduledAt.Some? then row.scheduledAt.value else 0
  }

  // ---- cancel safety --------------------------------------------------------------------------------

  /** A quiet run inserts row at k, cancels it successfully at i, and begins a post for it at j. */
  ghost predicate PostedAfterCancel(row: Row, states: seq<State>, steps: seq<Step>, n: nat, k: nat, i: nat, j: nat) {
    && Run(states, steps) && QuietDb(steps) && InsertsRow(steps, k, n, row) && k < i < j < |steps|
    && Does(states, steps, i, n) && steps[i].act.Cancel? && !states[i].cells[n].row.status.Cancelled?
    && n in states[i + 1].cells && states[i + 1].cells[n].row.status.Cancelled?
    && Does(states, steps, j, n) && steps[j].act.Send? && steps[j].act.p.BeginPost?
  }

  lemma DoReleased(row: Row, now: int) returns (c: Cell)
    requires Insertable(row) && row.scheduledAt.Some? && DueBy(row, now)
    ensures Leads(now, NewCell(row), BothHold() + Back(1), c) && Calm(BothHold() + Back(1))
    ensures c.row.status.Queued? && c.sched.Unlocked? && 0 in c.msgs && c.msgs[0].loc == Unacked(Sendable)
  {
    var c1 := DoBothHold(row, now);
    c := DoBack(now, c1, 1, false);
    Join(now, NewCell(row), BothHold(), c1, Back(1), c);
    CalmBothHold();
    CalmClaim(1);
    CalmJoin(BothHold(), Back(1));
  }

  /** One more step of a run of a single notification. */
  lemma LiftMore(
    states: seq<State>, steps: seq<Step>, row: Row, now: int, acts: seq<Act>, c: Cell, a: Act, c': Cell)
    requires IsRunOf(states, steps, row, now, acts, c) && OneStep(now, c, a, c')
    ensures IsRunOf(states + [Alone(row, now, c')], steps + [Do(0, a)], row, now, acts + [a], c')
  {
    AloneStep(row, now, c, a, c');
    RunExtends(states, steps, Do(0, a), Alone(row, now, c'));
  }

  function Cancelling(): seq<Act> {
    BothHold() + Back(1) + [Cancel(Fine)]
  }

  lemma CancelRun(row: Row) returns (states: seq<State>, steps: seq<Step>, c: Cell)
    requires Insertable(row) && row.scheduledAt.Some?
    ensures IsRunOf(states, steps, row, DueTime(row), Cancelling(), c) && Calm(Cancelling())
    ensures steps[|steps| - 1] == Do(0, Cancel(Fine)) && c.row.status.Cancelled?
    ensures 0 in states[|steps| - 1].cells && !states[|steps| - 1].cells[0].row.status.Cancelled?
    ensures 0 in c.msgs && c.msgs[0].loc == Unacked(Sendable)
  {
    var now := DueTime(row);
    var acts := BothHold() + Back(1);
    var c1 := DoReleased(row, now);
    var states1, steps1 := Lift(row, now, acts, c1);
    c := Apply(c1, now, Cancel(Fine));
    LiftMore(states1, steps1, row, now, acts, c1, Cancel(Fine), c);
    states, steps := states1 + [Alone(row, now, c)], steps1 + [Do(0, Cancel(Fine))];
    assert states[|steps1|] == Alone(row, now, c1);
    CalmJoin(acts, [Cancel(Fine)]);
  }

  /** Two workers hold copies of a due row; one is released, the row is cancelled, the other posts. */
  lemma PostAfterCancel(row: Row) returns (states: seq<State>, steps: seq<Step>, i: nat)
    requires Insertable(row) && row.scheduledAt.Some?
    ensures PostedAfterCancel(row, states, steps, 0, 0, i, i + 1)
  {
    var now := DueTime(row);
    var states1, steps1, c1 := CancelRun(row);
    i := |steps1| - 1;
    var c2 := Apply(c1, now, Send(0, BeginPost));
    LiftMore(states1, steps1, row, now, Cancelling(), c1, Send(0, BeginPost), c2);
    states, steps := states1 + [Alone(row, now, c2)], steps1 + [Do(0, Send(0, BeginPost))];
    CalmJoin(Cancelling(), [Send(0, BeginPost)]);
    CalmRun(states, steps, row, now, Cancelling() + [Send(0, BeginPost)], c2);
    assert states[i + 1] == Alone(row, now, c1);
  }

  /** Cancel safety can fail for a notification exactly when it is scheduled, which the caller knows
      before making the request. */
  lemma CancelSafetyFailsIff(row: Row)
    requires Insertable(row)
    ensures (exists states, steps, n, k, i, j :: PostedAfterCancel(row, states, steps, n, k, i, j))
            <==> row.scheduledAt.Some?
  {
    if row.scheduledAt.Some? {
      var states, steps, i := PostAfterCancel(row);
    } else {
      forall states, steps, n: nat, k: nat, i: nat, j: nat ensures !PostedAfterCancel(row, states, steps, n, k, i, j) {
        if PostedAfterCancel(row, states, steps, n, k, i, j) {
          PublishedAtMostOnce(states, steps, k, n, row, j);
          NeverPostedAfterCancel(states, steps, n, i + 1, j);
        }
      }
    }
  }

  // ---- publishes and accepted posts -------------------------------------------------------------------

  /** A quiet run inserts row at k and has published it twice after i steps. */
  ghost predicate PublishedTwice(row: Row, states: seq<State>, steps: seq<Step>, n: nat, k: nat, i: nat) {
    && Run(states, steps) && QuietDb(steps) && InsertsRow(steps, k, n, row) && k < i <= |steps|
    && Publishes(states, steps, n, i) == 2
  }

  /** Step i is a 2xx answer to a post for n. */
  ghost predicate AcceptsAt(states: seq<State>, steps: seq<Step>, n: nat, i: nat) {
    i < |steps| && i < |states| && Does(states, steps, i, n) && Happens(AcceptedPost, states[i].cells[n], steps[i].act)
  }

  /** A quiet run inserts row at k and has two posts for it accepted, at i and at j. */
  ghost predicate AcceptedTwice(row: Row, states: seq<State>, steps: seq<Step>, n: nat, k: nat, i: nat, j: nat) {
    && Run(states, steps) && QuietDb(steps) && InsertsRow(steps, k, n, row)
    && i < j && AcceptsAt(states, steps, n, i) && AcceptsAt(states, steps, n, j)
  }

  lemma DoAcceptBoth(row: Row, now: int) returns (c: Cell)
    requires Insertable(row) && row.scheduledAt.Some? && DueBy(row, now)
    ensures Leads(now, NewCell(row), BothHold() + Accept(0) + Accept(1), c)
    ensures Calm(BothHold() + Accept(0) + Accept(1)) && c.book.apiPubs == 1 && c.book.schedPubs == 1
  {
    var c1 := DoBothHold(row, now);
    var c2 := DoAccept(now, c1, 0);
    Join(now, NewCell(row), BothHold(), c1, Accept(0), c2);
    c := DoAccept(now, c2, 1);
    Join(now, NewCell(row), BothHold() + Accept(0), c2, Accept(1), c);
    CalmBothHold();
    CalmClaim(0);
    CalmClaim(1);
    CalmJoin(BothHold(), Accept(0));
    CalmJoin(BothHold() + Accept(0), Accept(1));
  }

  lemma IsAccepted(states: seq<State>, steps: seq<Step>, m: nat, i: nat)
    requires Run(states, steps) && i < |steps| && steps[i] == Do(0, Accept(m)[1])
    ensures AcceptsAt(states, steps, 0, i)
  {
    assert StepAt(states, steps, i);
  }

  lemma AcceptBoth(row: Row) returns (states: seq<State>, steps: seq<Step>, i: nat, j: nat)
    requires Insertable(row) && row.scheduledAt.Some?
    ensures PublishedTwice(row, states, steps, 0, 0, |steps|) && AcceptedTwice(row, states, steps, 0, 0, i, j)
  {
    var now := DueTime(row);
    var c := DoAcceptBoth(row, now);
    var acts := BothHold() + Accept(0) + Accept(1);
    states, steps := Lift(row, now, acts, c);
    CalmRun(states, steps, row, now, acts, c);
    BooksTally(states, steps, 0, |steps|);
    Placed(states, steps, row, now, BothHold(), Accept(0), Accept(1), c, 1);
    assert acts + [] == acts;
    Placed(states, steps, row, now, BothHold() + Accept(0), Accept(1), [], c, 1);
    i, j := |BothHold()| + 2, |BothHold() + Accept(0)| + 2;
    IsAccepted(states, steps, 0, i);
    IsAccepted(states, steps, 1, j);
  }

  /** A quiet run can publish a notification twice exactly when it is scheduled. */
  lemma PublishedTwiceIff(row: Row)
    requires Insertable(row)
    ensures (exists states, steps, n, k, i :: PublishedTwice(row, states, steps, n, k, i))
            <==> row.scheduledAt.Some?
  {
    if row.scheduledAt.Some? {
      var states, steps, i, j := AcceptBoth(row);
    } else {
      forall states, steps, n: nat, k: nat, i: nat ensures !PublishedTwice(row, states, steps, n, k, i) {
        if PublishedTwice(row, states, steps, n, k, i) {
          PublishedAtMostOnce(states, steps, k, n, row, i);
        }
      }
    }
  }

  lemma {:induction false} TallyGrows(states: seq<State>, steps: seq<Step>, kind: Kind, n: nat, i: nat, j: nat)
    requires Run(states, steps) && i <= j <= |steps|
    ensures Tally(states, steps, kind, n, i) <= Tally(states, steps, kind, n, j)
  {
    if i < j {
      TallyGrows(states, steps, kind, n, i, j - 1);
    }
  }

  lemma TwoAccepted(states: seq<State>, steps: seq<Step>, n: nat, i: nat, j: nat)
    requires Run(states, steps) && i < j && AcceptsAt(states, steps, n, i) && AcceptsAt(states, steps, n, j)
    ensures Tally(states, steps, AcceptedPost, n, j + 1) >= 2
  {
    TallyGrows(states, steps, AcceptedPost, n, i + 1, j);
  }

  /** In quiet runs the webhook can accept a notification twice exactly when it is scheduled. */
  lemma AcceptedTwiceIff(row: Row)
    requires Insertable(row)
    ensures (exists states, steps, n, k, i, j :: AcceptedTwice(row, states, steps, n, k, i, j))
            <==> row.scheduledAt.Some?
  {
    if row.scheduledAt.Some? {
      var states, steps, i, j := AcceptBoth(row);
    } else {
      forall states, steps, n: nat, k: nat, i: nat, j: nat ensures !AcceptedTwice(row, states, steps, n, k, i, j) {
        AcceptedOnce(row, states, steps, n, k, i, j);
      }
    }
  }

  lemma AcceptedOnce(row: Row, states: seq<State>, steps: seq<Step>, n: nat, k: nat, i: nat, j: nat)
    requires row.scheduledAt.None?
    ensures !AcceptedTwice(row, states, steps, n, k, i, j)
  {
    if AcceptedTwice(row, states, steps, n, k, i, j) {
      InsertedRow(states, steps, k, n, row, j);
      InsertedRow(states, steps, k, n, row, j + 1);
      PublishedAtMostOnce(states, steps, k, n, row, j + 1);
      QuietMeansNoCrash(steps);
      DuplicateBound(states, steps, n, j + 1);
      NoneGone(states, steps, n, j + 1);
      TwoAccepted(states, steps, n, i, j);
    }
  }

  // ---- a worker crash -----------------------------------------------------------------------------------

  function FirstAccepted(): seq<Act> {
    PUBLISH + Claim(0) + Accept(0)
  }

  lemma DoFirstAccepted(row: Row, now: int) returns (c: Cell)
    requires Insertable(row) && DueBy(row, now)
    ensures Leads(now, NewCell(row), FirstAccepted(), c)
    ensures c.row.status.Sending? && c.msgs == map[0 := Msg(0, 0, Unacked(Marking(None, 0)))] && c.sched.Unlocked?
    ensures c.book.apiPubs == 1 && c.book.schedPubs == 0
  {
    var c1 := DoPublish(row, now);
    var c2 := DoClaim(now, c1, 0);
    Join(now, NewCell(row), PUBLISH, c1, Claim(0), c2);
    c := DoAccept(now, c2, 0);
    Join(now, NewCell(row), PUBLISH + Claim(0), c2, Accept(0), c);
  }

  function Again(): seq<Act> {
    [Leave(0, Crash)] + Claim(0)
  }

  lemma DoAgain(row: Row, now: int) returns (c: Cell)
    requires Insertable(row) && DueBy(row, now)
    ensures Leads(now, NewCell(row), FirstAccepted() + Again() + Accept(0), c)
    ensures c.book.apiPubs == 1 && c.book.schedPubs == 0
  {
    var c1 := DoFirstAccepted(row, now);
    var c2 := Crashed(now, c1, 0);
    Single(now, c1, Leave(0, Crash), c2);
    var c3 := DoClaim(now, c2, 0);
    Join(now, c1, [Leave(0, Crash)], c2, Claim(0), c3);
    Join(now, NewCell(row), FirstAccepted(), c1, Again(), c3);
    c := DoAccept(now, c3, 0);
    Join(now, NewCell(row), FirstAccepted() + Again(), c3, Accept(0), c);
  }

  /** The duplicate bound needs its condition: for every notification there is a run in which its one
      publish is accepted twice, because a worker died after the webhook accepted and before the row
      was delivered. */
  lemma CrashAcceptsTwice(row: Row) returns (states: seq<State>, steps: seq<Step>, i: nat, j: nat)
    requires Insertable(row)
    ensures Run(states, steps) && InsertsRow(steps, 0, 0, row) && Publishes(states, steps, 0, |steps|) == 1
    ensures i < j && AcceptsAt(states, steps, 0, i) && AcceptsAt(states, steps, 0, j)
  {
    var now := DueTime(row);
    var c := DoAgain(row, now);
    var acts := FirstAccepted() + Again() + Accept(0);
    states, steps := Lift(row, now, acts, c);
    BooksTally(states, steps, 0, |steps|);
    assert acts == PUBLISH + Claim(0) + Accept(0) + (Again() + Accept(0));
    Placed(states, steps, row, now, PUBLISH + Claim(0), Accept(0), Again() + Accept(0), c, 1);
    assert acts + [] == acts;
    Placed(states, steps, row, now, FirstAccepted() + Again(), Accept(0), [], c, 1);
    i, j := |PUBLISH + Claim(0)| + 2, |FirstAccepted() + Again()| + 2;
    IsAccepted(states, steps, 0, i);
    IsAccepted(states, steps, 0, j);
  }

  // ---- loss -------------------------------------------------------------------------------------------------

  const GIVE_IN: seq<Act> := [Take(0, Deliver), Take(0, Read(Fault(false)))] + [Leave(0, Settle)]

  /** A worker's read of the row fails, and its message is dead-lettered. */
  lemma DoGiveIn(now: int, c: Cell) returns (c': Cell)
    requires c.msgs == map[0 := Msg(0, 0, InQueue)] && !Terminal(c.row.status)
    ensures Leads(now, c, GIVE_IN, c')
    ensures c'.row == c.row && c'.msgs == map[0 := Msg(0, 0, Dead)] && c'.task == c.task && c'.entries == c.entries
    ensures c'.sched == c.sched && (c.row.status.Pending? ==> c'.book.lost)
  {
    var c1 := Apply(c, now, Take(0, Deliver));
    var c2 := GiveInRead(now, c1);
    Two(now, c, Take(0, Deliver), c1, Take(0, Read(Fault(false))), c2);
    c' := Apply(c2, now, Leave(0, Settle));
    Then(now, c, [Take(0, Deliver), Take(0, Read(Fault(false)))], c2, Leave(0, Settle), c');
  }

  lemma GiveInRead(now: int, c: Cell) returns (c': Cell)
    requires c.msgs == map[0 := Msg(0, 0, Unacked(Reading))]
    ensures OneStep(now, c, Take(0, Read(Fault(false))), c')
    ensures c'.row == c.row && c'.msgs == map[0 := Msg(0, 0, Unacked(Done(DeadLetter)))] && c'.task == c.task
    ensures c'.entries == c.entries && c'.sched == c.sched && (c.row.status.Pending? ==> c'.book.lost)
  {
    c' := Apply(c, now, Take(0, Read(Fault(false))));
  }

  lemma DeadMeansStranded(c: Cell)
    requires c.row.status.Queued? && c.msgs == map[0 := Msg(0, 0, Dead)] && c.task.NoTask? && c.entries == map[]
    ensures Stranded(c)
  {
  }

  /** Drop points do strand rows: for every notification there is a run, without any crash, in which
      one failed read leaves it unfinished with no carrier. */
  lemma DropStrands(row: Row) returns (states: seq<State>, steps: seq<Step>, j: nat)
    requires Insertable(row)
    ensures Run(states, steps) && InsertsRow(steps, 0, 0, row) && NoCrashes(steps) && j < |steps|
    ensures 0 in states[|steps|].cells && Stranded(states[|steps|].cells[0]) && Dropped(states, steps, 0, j)
  {
    var now := DueTime(row);
    var c1 := DoPublish(row, now);
    var c := DoGiveIn(now, c1);
    Join(now, NewCell(row), PUBLISH, c1, GIVE_IN, c);
    DeadMeansStranded(c);
    states, steps := Lift(row, now, PUBLISH + GIVE_IN, c);
    NothingDies(states, steps, row, now, PUBLISH + GIVE_IN, c);
    LossAccounting(states, steps, 0, |steps|);
    j :| 0 <= j < |steps| && Dropped(states, steps, 0, j);
  }

  /** A step that is not one of those where a worker or the API gives a row up strands notification n,
      inserted as row at step k. */
  ghost predicate StrandedElsewhere(row: Row, states: seq<State>, steps: seq<Step>, n: nat, k: nat, j: nat) {
    && Run(states, steps) && NoZombies(steps) && InsertsRow(steps, k, n, row)
    && j < |steps| && Strands(states, steps, n, j) && !GivesUp(states[j].cells[n], steps[j].act)
  }

  lemma DoDeadBeforeMark(row: Row, now: int) returns (c: Cell)
    requires Insertable(row) && row.scheduledAt.Some? && DueBy(row, now)
    ensures Leads(now, NewCell(row), HAND_OVER + GIVE_IN, c) && c.row == row && c.msgs == map[0 := Msg(0, 0, Dead)]
    ensures c.task == ToMark(0, 0) && c.entries == map[] && c.sched.Unlocked? && c.book.lost
  {
    var c1 := DoHandOver(row, now);
    c := DoGiveIn(now, c1);
    Join(now, NewCell(row), HAND_OVER, c1, GIVE_IN, c);
  }

  /** The API publishes a due row; the copy is dead-lettered while the row is still pending, and the
      scheduler could still publish it again.  Then the API's own MarkQueued, which does not fail, takes
      the row out of the scheduler's reach. */
  lemma QueuedForDead(row: Row) returns (states: seq<State>, steps: seq<Step>, j: nat)
    requires Insertable(row) && row.scheduledAt.Some?
    ensures StrandedElsewhere(row, states, steps, 0, 0, j) && NoCrashes(steps) && j + 1 == |steps|
    ensures steps[j] == Do(0, Api(MarkTask(Fine))) && Carries(states[j].cells[0], BySchedule)
    ensures exists i :: 0 <= i < j && Dropped(states, steps, 0, i)
  {
    var now := DueTime(row);
    var acts := HAND_OVER + GIVE_IN;
    var c1 := DoDeadBeforeMark(row, now);
    var states1, steps1 := Lift(row, now, acts, c1);
    j := |steps1|;
    var c2 := Apply(c1, now, Api(MarkTask(Fine)));
    LiftMore(states1, steps1, row, now, acts, c1, Api(MarkTask(Fine)), c2);
    states, steps := states1 + [Alone(row, now, c2)], steps1 + [Do(0, Api(MarkTask(Fine)))];
    assert states[j] == Alone(row, now, c1) && Carries(c1, BySchedule);
    DeadMeansStranded(c2);
    NothingDies(states, steps, row, now, acts + [Api(MarkTask(Fine))], c2);
    var i := LossHappened(states, steps, 0, j);
  }

  /** Acts without worker deaths make a run without them. */
  lemma NothingDies(states: seq<State>, steps: seq<Step>, row: Row, now: int, acts: seq<Act>, c: Cell)
    requires IsRunOf(states, steps, row, now, acts, c) && forall i :: 0 <= i < |acts| ==> !Crashing(acts[i])
    ensures NoCrashes(steps) && NoZombies(steps)
  {
    forall i | 0 <= i < |steps| && steps[i].Do? ensures !Crashing(steps[i].act) && !Zombie(steps[i].act) {
      assert steps[i - 1 + 1] == Do(0, acts[i - 1]);
    }
  }

  /** A notification can be stranded at a step that gives nothing up exactly when it is scheduled. */
  lemma StrandedElsewhereIff(row: Row)
    requires Insertable(row)
    ensures (exists states, steps, n, k, j :: StrandedElsewhere(row, states, steps, n, k, j)) <==> row.scheduledAt.Some?
  {
    if row.scheduledAt.Some? {
      var states, steps, j := QueuedForDead(row);
    } else {
      forall states, steps, n: nat, k: nat, j: nat ensures !StrandedElsewhere(row, states, steps, n, k, j) {
        if StrandedElsewhere(row, states, steps, n, k, j) {
          InsertedRow(states, steps, k, n, row, j);
          StrandedWhere(states, steps, n, j);
        }
      }
    }
  }

  // ---- a handler that outlives its connection -----------------------------------------------------------

  const LOSE: seq<Act> := [Leave(0, LoseConnection)]

  /** The worker goes on as an orphan, named message 1; message 0 is back in the queue. */
  lemma DoLose(now: int, c: Cell) returns (c': Cell)
    requires c.msgs == map[0 := Msg(0, 0, Unacked(Sendable))] && c.next == 1
    ensures Leads(now, c, LOSE, c')
    ensures c'.row == c.row && c'.sched == c.sched && c'.task == c.task && c'.entries == c.entries
    ensures c'.msgs == map[0 := Msg(0, 0, InQueue), 1 := Msg(0, 0, Orphan(Sendable))]
  {
    c' := Apply(c, now, Leave(0, LoseConnection));
    Single(now, c, Leave(0, LoseConnection), c');
  }

  function Marks(k: nat): seq<Act> {
    if k == 0 then [] else Marks(k - 1) + [Send(0, MarkDelivered(Fine))]
  }

  lemma MarkMisses(now: int, c: Cell, t: nat) returns (c': Cell)
    requires 0 in c.msgs && c.msgs[0].loc == Unacked(Marking(None, t)) && t < MARK_DELIVERED_ATTEMPTS
    requires c.row.status.Queued? && c.sched.Unlocked?
    ensures OneStep(now, c, Send(0, MarkDelivered(Fine)), c')
    ensures OnlyMoved(c, 0, c', Queued,
                      Unacked(if t + 1 < MARK_DELIVERED_ATTEMPTS then Marking(None, t + 1) else Done(DeadLetter)))
  {
    c' := Apply(c, now, Send(0, MarkDelivered(Fine)));
  }

  /** Every attempt to record the delivery reaches the database and misses, for the row is queued. */
  lemma {:induction false} DoMarks(now: int, c: Cell, k: nat) returns (c': Cell)
    requires 0 in c.msgs && c.msgs[0].loc == Unacked(Marking(None, 0)) && k <= MARK_DELIVERED_ATTEMPTS
    requires c.row.status.Queued? && c.sched.Unlocked?
    ensures Leads(now, c, Marks(k), c') && Calm(Marks(k))
    ensures OnlyMoved(c, 0, c', Queued,
                      Unacked(if k < MARK_DELIVERED_ATTEMPTS then Marking(None, k) else Done(DeadLetter)))
  {
    if k == 0 {
      c' := c;
      assert Trail(now, [c], []);
      assert c.msgs == c.msgs[0 := c.msgs[0].(loc := c.msgs[0].loc)];
    } else {
      var mid := DoMarks(now, c, k - 1);
      c' := MarkMisses(now, mid, k - 1);
      Then(now, c, Marks(k - 1), mid, Send(0, MarkDelivered(Fine)), c');
      MovedTwice(c, 0, mid, Queued, Unacked(Marking(None, k - 1)), c', Queued, c'.msgs[0].loc);
      CalmJoin(Marks(k - 1), [Send(0, MarkDelivered(Fine))]);
    }
  }

  const SETTLE: seq<Act> := [Leave(1, Settle), Leave(0, Settle)]

  lemma DoSettle(now: int, c: Cell) returns (c': Cell)
    requires c.msgs == map[0 := Msg(0, 0, Unacked(Done(DeadLetter))), 1 := Msg(0, 0, Orphan(Done(Requeue)))]
    ensures Leads(now, c, SETTLE, c')
    ensures c'.row == c.row && c'.msgs == map[0 := Msg(0, 0, Dead)] && c'.task == c.task && c'.entries == c.entries
  {
    var c1 := Apply(c, now, Leave(1, Settle));
    assert c1.msgs == map[0 := Msg(0, 0, Unacked(Done(DeadLetter)))];
    c' := Apply(c1, now, Leave(0, Settle));
    Two(now, c, Leave(1, Settle), c1, Leave(0, Settle), c');
  }

  /** What happens after the connection is lost: a second worker posts, and before it can record the
      delivery the first one releases the row. */
  function Afterwards(): seq<Act> {
    Claim(0) + Accept(0) + Back(1) + Marks(MARK_DELIVERED_ATTEMPTS) + SETTLE
  }

  lemma DoOverlap(now: int, c: Cell) returns (c': Cell)
    requires c.row.status.Sending? && c.sched.Unlocked?
    requires c.msgs == map[0 := Msg(0, 0, InQueue), 1 := Msg(0, 0, Orphan(Sendable))]
    ensures Leads(now, c, Claim(0) + Accept(0) + Back(1), c')
    ensures c'.row.status.Queued? && c'.sched.Unlocked? && c'.task == c.task && c'.entries == c.entries
    ensures c'.msgs == map[0 := Msg(0, 0, Unacked(Marking(None, 0))), 1 := Msg(0, 0, Orphan(Done(Requeue)))]
  {
    var c1 := DoClaim(now, c, 0);
    var c2 := DoAccept(now, c1, 0);
    Join(now, c, Claim(0), c1, Accept(0), c2);
    c' := DoBack(now, c2, 1, true);
    Join(now, c, Claim(0) + Accept(0), c2, Back(1), c');
  }

  lemma DoAfterwards(now: int, c: Cell) returns (c': Cell)
    requires c.row.status.Sending? && c.sched.Unlocked? && c.task.NoTask? && c.entries == map[]
    requires c.msgs == map[0 := Msg(0, 0, InQueue), 1 := Msg(0, 0, Orphan(Sendable))]
    ensures Leads(now, c, Afterwards(), c') && Stranded(c') && Calm(Afterwards())
  {
    var c1 := DoOverlap(now, c);
    var c2 := DoMarks(now, c1, MARK_DELIVERED_ATTEMPTS);
    Join(now, c, Claim(0) + Accept(0) + Back(1), c1, Marks(MARK_DELIVERED_ATTEMPTS), c2);
    c' := DoSettle(now, c2);
    Join(now, c, Claim(0) + Accept(0) + Back(1) + Marks(MARK_DELIVERED_ATTEMPTS), c2, SETTLE, c');
    DeadMeansStranded(c');
    HarmlessAfterwards();
  }

  lemma HarmlessAfterwards()
    requires Calm(Marks(MARK_DELIVERED_ATTEMPTS))
    ensures Calm(Afterwards())
  {
    CalmClaim(0);
    CalmClaim(1);
    CalmJoin(Claim(0), Accept(0));
    CalmJoin(Claim(0) + Accept(0), Back(1));
    CalmJoin(Claim(0) + Accept(0) + Back(1), Marks(MARK_DELIVERED_ATTEMPTS));
    CalmJoin(Claim(0) + Accept(0) + Back(1) + Marks(MARK_DELIVERED_ATTEMPTS), SETTLE);
  }

  lemma DoLost(row: Row, now: int) returns (c: Cell)
    requires Insertable(row) && DueBy(row, now)
    ensures Leads(now, NewCell(row), PUBLISH + Claim(0) + LOSE, c) && Calm(PUBLISH + Claim(0))
    ensures c.row.status.Sending? && c.sched.Unlocked? && c.task.NoTask? && c.entries == map[]
    ensures c.msgs == map[0 := Msg(0, 0, InQueue), 1 := Msg(0, 0, Orphan(Sendable))]
  {
    var c1 := DoPublish(row, now);
    var c2 := DoClaim(now, c1, 0);
    Join(now, NewCell(row), PUBLISH, c1, Claim(0), c2);
    c := DoLose(now, c2);
    Join(now, NewCell(row), PUBLISH + Claim(0), c2, LOSE, c);
    CalmClaim(0);
    CalmJoin(PUBLISH, Claim(0));
  }

  lemma DoOrphan(row: Row, now: int) returns (c: Cell)
    requires Insertable(row) && DueBy(row, now)
    ensures Leads(now, NewCell(row), PUBLISH + Claim(0) + LOSE + Afterwards(), c) && Stranded(c)
    ensures Calm(PUBLISH + Claim(0)) && Calm(Afterwards())
  {
    var c1 := DoLost(row, now);
    c := DoAfterwards(now, c1);
    Join(now, NewCell(row), PUBLISH + Claim(0) + LOSE, c1, Afterwards(), c);
  }

  /** A lost connection can strand a row where no drop point is passed and no call fails: for every
      notification there is such a run.  So loss accounting needs its condition. */
  lemma OrphanStrands(row: Row) returns (states: seq<State>, steps: seq<Step>, j: nat)
    requires Insertable(row)
    ensures Run(states, steps) && InsertsRow(steps, 0, 0, row) && j < |steps|
    ensures steps[j] == Do(0, Leave(0, LoseConnection))
    ensures forall i :: 0 <= i < |steps| && i != j && steps[i].Do? ==> QuietAct(steps[i].act)
    ensures forall i :: 0 <= i < |steps| && Does(states, steps, i, 0) ==> !DropPoint(states[i].cells[0], steps[i].act)
    ensures 0 in states[|steps|].cells && Stranded(states[|steps|].cells[0])
  {
    var now := DueTime(row);
    var c := DoOrphan(row, now);
    var before := PUBLISH + Claim(0);
    var acts := before + LOSE + Afterwards();
    states, steps := Lift(row, now, acts, c);
    j := |before| + 1;
    Placed(states, steps, row, now, before, LOSE, Afterwards(), c, 0);
    forall i | 0 <= i < |steps| && i != j && steps[i].Do? ensures Harmless(steps[i].act) {
      OtherwiseHarmless(states, steps, row, now, before, Afterwards(), c, i);
    }
    forall i | 0 <= i < |steps| && Does(states, steps, i, 0) ensures !DropPoint(states[i].cells[0], steps[i].act) {
    }
  }

  lemma OtherwiseHarmless(
    states: seq<State>, steps: seq<Step>, row: Row, now: int, before: seq<Act>, after: seq<Act>, c: Cell, i: nat)
    requires IsRunOf(states, steps, row, now, before + LOSE + after, c) && Calm(before) && Calm(after)
    requires i < |steps| && i != |before| + 1 && steps[i].Do?
    ensures Harmless(steps[i].act)
  {
    var acts := before + LOSE + after;
    assert steps[i - 1 + 1] == Do(0, acts[i - 1]);
    assert acts[i - 1] == if i - 1 < |before| then before[i - 1] else after[i - 2 - |before|];
  }
}
