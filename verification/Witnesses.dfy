/** Runs that show where the guarantees end.  Every condition of the main theorems is needed, and
    every bound is reached, for every notification and not only for some. */
module Witnesses {
  import opened Domain
  import opened Protocol
  import opened Runs
  import opened Safety
  import opened Coverage
  import opened Lineage
  import opened Quiet
  import opened QuietTheorems
  import opened Theorems
  import opened Tallies

  /** A row as a request inserts it. */
  predicate Insertable(row: Row) {
    row.status.Pending? && row.provider.None?
  }

  predicate OneStep(now: int, c: Cell, a: Act, c': Cell) {
    Plain(a) && Enabled(c, now, a) && c' == Apply(c, now, a)
  }

  /** Steps that need no agreement with other notifications. */
  predicate Plain(a: Act) {
    !a.Relay? && !(a.Api? && a.t.Enqueue?)
  }

  /** The cells passed through when the acts are done one after the other at one time. */
  ghost predicate Trail(now: int, cells: seq<Cell>, acts: seq<Act>) {
    && |cells| == |acts| + 1
    && forall i {:trigger OneStep(now, cells[i], acts[i], cells[i + 1])} ::
         0 <= i < |acts| ==> OneStep(now, cells[i], acts[i], cells[i + 1])
  }

  ghost predicate Leads(now: int, c: Cell, acts: seq<Act>, c': Cell) {
    exists cells :: Trail(now, cells, acts) && cells[0] == c && cells[|acts|] == c'
  }

  lemma TrailAt(now: int, cells: seq<Cell>, acts: seq<Act>, i: nat)
    requires Trail(now, cells, acts) && i < |acts|
    ensures OneStep(now, cells[i], acts[i], cells[i + 1])
  {
  }

  lemma Join(now: int, c: Cell, first: seq<Act>, mid: Cell, second: seq<Act>, c': Cell)
    requires Leads(now, c, first, mid) && Leads(now, mid, second, c')
    ensures Leads(now, c, first + second, c')
  {
    var x :| Trail(now, x, first) && x[0] == c && x[|first|] == mid;
    var y :| Trail(now, y, second) && y[0] == mid && y[|second|] == c';
    var cells, acts := x + y[1..], first + second;
    forall i | 0 <= i < |acts| ensures OneStep(now, cells[i], acts[i], cells[i + 1]) {
      if i < |first| {
        TrailAt(now, x, first, i);
      } else {
        TrailAt(now, y, second, i - |first|);
      }
    }
    assert Trail(now, cells, acts);
  }

  lemma Single(now: int, c: Cell, a: Act, c': Cell)
    requires OneStep(now, c, a, c')
    ensures Leads(now, c, [a], c')
  {
    assert Trail(now, [c, c'], [a]);
  }

  lemma Then(now: int, c: Cell, acts: seq<Act>, mid: Cell, a: Act, c': Cell)
    requires Leads(now, c, acts, mid) && OneStep(now, mid, a, c')
    ensures Leads(now, c, acts + [a], c')
  {
    Single(now, mid, a, c');
    Join(now, c, acts, mid, [a], c');
  }

  lemma Two(now: int, c0: Cell, a0: Act, c1: Cell, a1: Act, c2: Cell)
    requires OneStep(now, c0, a0, c1) && OneStep(now, c1, a1, c2)
    ensures Leads(now, c0, [a0, a1], c2)
  {
    assert Trail(now, [c0, c1, c2], [a0, a1]);
  }

  lemma Four(now: int, c0: Cell, a0: Act, a1: Act, c2: Cell, a2: Act, a3: Act, c4: Cell)
    requires Leads(now, c0, [a0, a1], c2) && Leads(now, c2, [a2, a3], c4)
    ensures Leads(now, c0, [a0, a1, a2, a3], c4)
  {
    Join(now, c0, [a0, a1], c2, [a2, a3], c4);
    assert [a0, a1] + [a2, a3] == [a0, a1, a2, a3];
  }

  // ---- as runs of the system ----------------------------------------------------------------------

  function CatalogFor(row: Row): Catalog {
    if row.batch.Some? then Catalog(1, row.batch.value + 1, map[row.batch.value := 1]) else Catalog(1, 0, map[])
  }

  function Alone(row: Row, now: int, c: Cell): State {
    State(now, map[0 := c], 0, CatalogFor(row))
  }

  function Start(now: int): State {
    State(now, map[], 0, EMPTY_CATALOG)
  }

  function Insertion(row: Row): Step {
    Commit(map[0 := row], CatalogFor(row))
  }

  lemma AloneStep(row: Row, now: int, c: Cell, a: Act, c': Cell)
    requires OneStep(now, c, a, c')
    ensures CanStep(Alone(row, now, c), Do(0, a)) && Next(Alone(row, now, c), Do(0, a)) == Alone(row, now, c')
  {
    assert map[0 := c][0 := c'] == map[0 := c'];
  }

  lemma FirstStep(row: Row, now: int)
    requires Insertable(row)
    ensures CanStep(Start(now), Insertion(row)) && Next(Start(now), Insertion(row)) == Alone(row, now, NewCell(row))
  {
    assert FreshRow(EMPTY_CATALOG, CatalogFor(row), 0, row);
    assert NewCells(map[0 := row]) == map[0 := NewCell(row)];
  }

  ghost predicate IsRunOf(states: seq<State>, steps: seq<Step>, row: Row, now: int, acts: seq<Act>, c: Cell) {
    && Run(states, steps) && |steps| == |acts| + 1 && steps[0] == Insertion(row)
    && (forall i :: 0 <= i < |acts| ==> steps[i + 1] == Do(0, acts[i]))
    && states[|steps|] == Alone(row, now, c)
  }

  function StatesOf(row: Row, now: int, cells: seq<Cell>): seq<State> {
    [Start(now)] + seq(|cells|, i requires 0 <= i < |cells| => Alone(row, now, cells[i]))
  }

  function StepsOf(row: Row, acts: seq<Act>): seq<Step> {
    [Insertion(row)] + seq(|acts|, i requires 0 <= i < |acts| => Do(0, acts[i]))
  }

  lemma LiftFirst(row: Row, now: int, cells: seq<Cell>, acts: seq<Act>)
    requires Insertable(row) && |cells| > 0 && cells[0] == NewCell(row)
    ensures StepAt(StatesOf(row, now, cells), StepsOf(row, acts), 0)
  {
    FirstStep(row, now);
  }

  lemma LiftAt(row: Row, now: int, cells: seq<Cell>, acts: seq<Act>, i: nat)
    requires Trail(now, cells, acts) && 0 < i <= |acts|
    ensures StepAt(StatesOf(row, now, cells), StepsOf(row, acts), i)
  {
    TrailAt(now, cells, acts, i - 1);
    AloneStep(row, now, cells[i - 1], acts[i - 1], cells[i]);
  }

  /** A single notification doing these acts is a run of the system. */
  lemma Lift(row: Row, now: int, acts: seq<Act>, c: Cell) returns (states: seq<State>, steps: seq<Step>)
    requires Insertable(row) && Leads(now, NewCell(row), acts, c)
    ensures IsRunOf(states, steps, row, now, acts, c)
  {
    var cells :| Trail(now, cells, acts) && cells[0] == NewCell(row) && cells[|acts|] == c;
    states, steps := StatesOf(row, now, cells), StepsOf(row, acts);
    forall i | 0 <= i < |steps| ensures StepAt(states, steps, i) {
      if i == 0 {
        LiftFirst(row, now, cells, acts);
      } else {
        LiftAt(row, now, cells, acts, i);
      }
    }
  }

  /** Where a stretch of work stands in the run. */
  lemma Placed(
    states: seq<State>, steps: seq<Step>, row: Row, now: int,
    before: seq<Act>, acts: seq<Act>, after: seq<Act>, c: Cell, k: nat)
    requires IsRunOf(states, steps, row, now, before + acts + after, c) && k < |acts|
    ensures |before| + k + 1 < |steps| && steps[|before| + k + 1] == Do(0, acts[k])
  {
    assert (before + acts + after)[|before| + k] == acts[k];
  }

  // ---- stretches of work --------------------------------------------------------------------------

  /** Message m moved and the row took this status; publishers and other messages stayed. */
  ghost predicate OnlyMoved(c: Cell, m: nat, c': Cell, st: Status, loc: Loc)
    requires m in c.msgs
  {
    && c'.row == c.row.(status := st) && c'.msgs == c.msgs[m := c.msgs[m].(loc := loc)]
    && c'.sched == c.sched && c'.task == c.task && c'.entries == c.entries && c'.next == c.next
    && c'.book.apiPubs == c.book.apiPubs && c'.book.schedPubs == c.book.schedPubs
  }

  lemma MovedTwice(c: Cell, m: nat, c1: Cell, st1: Status, loc1: Loc, c2: Cell, st2: Status, loc2: Loc)
    requires m in c.msgs && OnlyMoved(c, m, c1, st1, loc1) && OnlyMoved(c1, m, c2, st2, loc2)
    ensures OnlyMoved(c, m, c2, st2, loc2)
  {
  }

  function Admit(m: nat): seq<Act> {
    [Take(m, Deliver), Take(m, Read(Fine)), Take(m, Build(BuildOk)), Take(m, Limit(true))]
  }

  function Claim(m: nat): seq<Act> {
    Admit(m) + [Take(m, MarkSending(Fine))]
  }

  lemma Taken(now: int, c: Cell, m: nat, a: TakeAct, loc: Loc) returns (c': Cell)
    requires TakeEnabled(c, m, a) && !a.MarkSending? && !Terminal(c.row.status)
    requires loc == match a
                    case Deliver => Unacked(Reading)
                    case Read(_) => Unacked(Building)
                    case Build(_) => Unacked(Limiting)
                    case Limit(_) => Unacked(Claiming)
    requires a.Read? ==> a.db.Fine?
    requires a.Build? ==> a.built.BuildOk?
    requires a.Limit? ==> a.ok
    requires c.msgs[m].loc.InQueue? || c.msgs[m].loc.Unacked?
    ensures OneStep(now, c, Take(m, a), c') && OnlyMoved(c, m, c', c.row.status, loc)
  {
    c' := Apply(c, now, Take(m, a));
  }

  lemma Claimed(now: int, c: Cell, m: nat) returns (c': Cell)
    requires TakeEnabled(c, m, MarkSending(Fine)) && (c.row.status.Queued? || c.row.status.Sending?)
    requires c.msgs[m].loc.Unacked?
    ensures OneStep(now, c, Take(m, MarkSending(Fine)), c') && OnlyMoved(c, m, c', Sending, Unacked(Sendable))
  {
    c' := Apply(c, now, Take(m, MarkSending(Fine)));
  }

  lemma DoAdmit(now: int, c: Cell, m: nat) returns (c': Cell)
    requires m in c.msgs && c.msgs[m].loc.InQueue? && !Terminal(c.row.status)
    ensures Leads(now, c, Admit(m), c') && OnlyMoved(c, m, c', c.row.status, Unacked(Claiming))
  {
    var c1 := Taken(now, c, m, Deliver, Unacked(Reading));
    var c2 := Taken(now, c1, m, Read(Fine), Unacked(Building));
    MovedTwice(c, m, c1, c.row.status, Unacked(Reading), c2, c.row.status, Unacked(Building));
    var c3 := Taken(now, c2, m, Build(BuildOk), Unacked(Limiting));
    MovedTwice(c, m, c2, c.row.status, Unacked(Building), c3, c.row.status, Unacked(Limiting));
    c' := Taken(now, c3, m, Limit(true), Unacked(Claiming));
    MovedTwice(c, m, c3, c.row.status, Unacked(Limiting), c', c.row.status, Unacked(Claiming));
    Two(now, c, Take(m, Deliver), c1, Take(m, Read(Fine)), c2);
    Two(now, c2, Take(m, Build(BuildOk)), c3, Take(m, Limit(true)), c');
    Four(now, c, Take(m, Deliver), Take(m, Read(Fine)), c2, Take(m, Build(BuildOk)), Take(m, Limit(true)), c');
  }

  /** A worker takes message m and gets as far as claiming the row. */
  lemma DoClaim(now: int, c: Cell, m: nat) returns (c': Cell)
    requires m in c.msgs && c.msgs[m].loc.InQueue? && c.sched.Unlocked?
    requires c.row.status.Queued? || c.row.status.Sending?
    ensures Leads(now, c, Claim(m), c') && OnlyMoved(c, m, c', Sending, Unacked(Sendable))
  {
    var c1 := DoAdmit(now, c, m);
    c' := Claimed(now, c1, m);
    Then(now, c, Admit(m), c1, Take(m, MarkSending(Fine)), c');
  }

  /** A handler at pc; an orphan has lost its connection. */
  function Handled(orphan: bool, pc: Pc): Loc {
    if orphan then Orphan(pc) else Unacked(pc)
  }

  lemma Sent(now: int, c: Cell, m: nat, a: SendAct, orphan: bool, pc: Pc) returns (c': Cell)
    requires SendEnabled(c, m, a) && c.msgs[m].loc.Orphan? == orphan && c.msgs[m].retry == 0
    requires || (a.BeginPost? && pc == Posting)
             || (a == EndPost(Accepted(None)) && pc == Marking(None, 0))
             || (a == EndPost(Transient) && pc == Waiting)
    ensures OneStep(now, c, Send(m, a), c') && OnlyMoved(c, m, c', c.row.status, Handled(orphan, pc))
  {
    c' := Apply(c, now, Send(m, a));
  }

  lemma Left(now: int, c: Cell, m: nat, a: LeaveAct, orphan: bool, st: Status, pc: Pc) returns (c': Cell)
    requires LeaveEnabled(c, m, a) && c.msgs[m].loc.Orphan? == orphan && c.row.status.Sending?
    requires || (a == Wait(Shutdown) && pc == Releasing && st == Sending)
             || (a == Release(Fine) && pc == Done(Requeue) && st == Queued)
    ensures OneStep(now, c, Leave(m, a), c') && OnlyMoved(c, m, c', st, Handled(orphan, pc))
  {
    c' := Apply(c, now, Leave(m, a));
  }

  lemma Crashed(now: int, c: Cell, m: nat) returns (c': Cell)
    requires Handling(c, m) && c.msgs[m].loc.Unacked?
    ensures OneStep(now, c, Leave(m, Crash), c') && OnlyMoved(c, m, c', c.row.status, InQueue)
  {
    c' := Apply(c, now, Leave(m, Crash));
  }

  function Accept(m: nat): seq<Act> {
    [Send(m, BeginPost), Send(m, EndPost(Accepted(None)))]
  }

  /** The webhook accepts the post made for message m. */
  lemma DoAccept(now: int, c: Cell, m: nat) returns (c': Cell)
    requires m in c.msgs && c.msgs[m].loc == Unacked(Sendable) && c.msgs[m].retry == 0
    ensures Leads(now, c, Accept(m), c') && OnlyMoved(c, m, c', c.row.status, Unacked(Marking(None, 0)))
  {
    var c1 := Sent(now, c, m, BeginPost, false, Posting);
    c' := Sent(now, c1, m, EndPost(Accepted(None)), false, Marking(None, 0));
    MovedTwice(c, m, c1, c.row.status, Unacked(Posting), c', c.row.status, Unacked(Marking(None, 0)));
    Two(now, c, Send(m, BeginPost), c1, Send(m, EndPost(Accepted(None))), c');
  }

  function Back(m: nat): seq<Act> {
    [Send(m, BeginPost), Send(m, EndPost(Transient)), Leave(m, Wait(Shutdown)), Leave(m, Release(Fine))]
  }

  /** A transient answer, and then a shutdown during the backoff. */
  lemma DoBack(now: int, c: Cell, m: nat, orphan: bool) returns (c': Cell)
    requires m in c.msgs && c.msgs[m].loc == Handled(orphan, Sendable) && c.msgs[m].retry == 0
    requires c.sched.Unlocked? && c.row.status.Sending?
    ensures Leads(now, c, Back(m), c') && OnlyMoved(c, m, c', Queued, Handled(orphan, Done(Requeue)))
  {
    var c1 := Sent(now, c, m, BeginPost, orphan, Posting);
    var c2 := Sent(now, c1, m, EndPost(Transient), orphan, Waiting);
    MovedTwice(c, m, c1, Sending, Handled(orphan, Posting), c2, Sending, Handled(orphan, Waiting));
    var c3 := Left(now, c2, m, Wait(Shutdown), orphan, Sending, Releasing);
    MovedTwice(c, m, c2, Sending, Handled(orphan, Waiting), c3, Sending, Handled(orphan, Releasing));
    c' := Left(now, c3, m, Release(Fine), orphan, Queued, Done(Requeue));
    MovedTwice(c, m, c3, Sending, Handled(orphan, Releasing), c', Queued, Handled(orphan, Done(Requeue)));
    Two(now, c, Send(m, BeginPost), c1, Send(m, EndPost(Transient)), c2);
    Two(now, c2, Leave(m, Wait(Shutdown)), c3, Leave(m, Release(Fine)), c');
    Four(now, c, Send(m, BeginPost), Send(m, EndPost(Transient)), c2,
         Leave(m, Wait(Shutdown)), Leave(m, Release(Fine)), c');
  }

  // ---- publishing -----------------------------------------------------------------------------------

  const PUBLISH: seq<Act> := [Api(TakeTime), Api(ReadBack(Fine)), Api(TryPublish(true)), Api(MarkTask(Fine))]

  /** A row whose schedule has passed, if it has one, published once by the API. */
  ghost predicate PublishedByApi(row: Row, c: Cell) {
    && c.row == row.(status := Queued) && c.msgs == map[0 := Msg(0, 0, InQueue)] && c.sched.Unlocked?
    && c.task.NoTask? && c.entries == map[] && c.next == 1 && c.book.apiPubs == 1 && c.book.schedPubs == 0
  }

  lemma DoPublish(row: Row, now: int) returns (c: Cell)
    requires Insertable(row) && DueBy(row, now)
    ensures Leads(now, NewCell(row), PUBLISH, c) && PublishedByApi(row, c)
  {
    var c0 := NewCell(row);
    var c1 := Apply(c0, now, Api(TakeTime));
    assert c1.task == ToRead(now);
    var c2 := Apply(c1, now, Api(ReadBack(Fine)));
    var c3 := Apply(c2, now, Api(TryPublish(true)));
    c := Apply(c3, now, Api(MarkTask(Fine)));
    Two(now, c0, Api(TakeTime), c1, Api(ReadBack(Fine)), c2);
    Two(now, c2, Api(TryPublish(true)), c3, Api(MarkTask(Fine)), c);
    Four(now, c0, Api(TakeTime), Api(ReadBack(Fine)), c2, Api(TryPublish(true)), Api(MarkTask(Fine)), c);
  }

  const HAND_OVER: seq<Act> := [Api(TakeTime), Api(ReadBack(Fine))] + [Api(TryPublish(true))]
  const SCHEDULE: seq<Act> := [Sched(SClaim), Sched(SRead(Fine)), Sched(SPublish(true)), Sched(SCommit(Fine))]

  lemma DoHandOver(row: Row, now: int) returns (c: Cell)
    requires Insertable(row) && DueBy(row, now)
    ensures Leads(now, NewCell(row), HAND_OVER, c)
    ensures c.row == row && c.msgs == map[0 := Msg(0, 0, InQueue)] && c.next == 1 && c.sched.Unlocked?
    ensures c.book.apiPubs == 1 && c.book.schedPubs == 0 && c.task == ToMark(0, 0) && c.entries == map[] && !c.book.lost
  {
    var c0 := NewCell(row);
    var c1 := Apply(c0, now, Api(TakeTime));
    assert c1.task == ToRead(now);
    var c2 := Apply(c1, now, Api(ReadBack(Fine)));
    Two(now, c0, Api(TakeTime), c1, Api(ReadBack(Fine)), c2);
    c := Apply(c2, now, Api(TryPublish(true)));
    Then(now, c0, [Api(TakeTime), Api(ReadBack(Fine))], c2, Api(TryPublish(true)), c);
  }

  lemma DoSchedule(row: Row, now: int, c: Cell) returns (c': Cell)
    requires Insertable(row) && row.scheduledAt.Some? && DueBy(row, now)
    requires c.row == row && c.msgs == map[0 := Msg(0, 0, InQueue)] && c.next == 1 && c.sched.Unlocked?
    requires c.book.apiPubs == 1 && c.book.schedPubs == 0
    ensures Leads(now, c, SCHEDULE, c')
    ensures c'.row == row.(status := Queued) && c'.msgs == map[0 := Msg(0, 0, InQueue), 1 := Msg(1, 0, InQueue)]
    ensures c'.sched.Unlocked? && c'.book.apiPubs == 1 && c'.book.schedPubs == 1
  {
    var c1 := Apply(c, now, Sched(SClaim));
    var c2 := Apply(c1, now, Sched(SRead(Fine)));
    var c3 := Apply(c2, now, Sched(SPublish(true)));
    c' := Apply(c3, now, Sched(SCommit(Fine)));
    Two(now, c, Sched(SClaim), c1, Sched(SRead(Fine)), c2);
    Two(now, c2, Sched(SPublish(true)), c3, Sched(SCommit(Fine)), c');
    Four(now, c, Sched(SClaim), Sched(SRead(Fine)), c2, Sched(SPublish(true)), Sched(SCommit(Fine)), c');
  }

  /** A row that is due when the API looks can be published by the API and by the scheduler, and
      then two workers can hold it at once. */
  function BothHold(): seq<Act> {
    HAND_OVER + SCHEDULE + Claim(0) + Claim(1)
  }

  lemma DoBothHold(row: Row, now: int) returns (c: Cell)
    requires Insertable(row) && row.scheduledAt.Some? && DueBy(row, now)
    ensures Leads(now, NewCell(row), BothHold(), c)
    ensures c.row == row.(status := Sending) && c.sched.Unlocked? && c.book.apiPubs == 1 && c.book.schedPubs == 1
    ensures c.msgs == map[0 := Msg(0, 0, Unacked(Sendable)), 1 := Msg(1, 0, Unacked(Sendable))]
  {
    var c1 := DoHandOver(row, now);
    var c2 := DoSchedule(row, now, c1);
    Join(now, NewCell(row), HAND_OVER, c1, SCHEDULE, c2);
    var c3 := DoClaim(now, c2, 0);
    Join(now, NewCell(row), HAND_OVER + SCHEDULE, c2, Claim(0), c3);
    c := DoClaim(now, c3, 1);
    Join(now, NewCell(row), HAND_OVER + SCHEDULE + Claim(0), c3, Claim(1), c);
  }

  // ---- quiet stretches --------------------------------------------------------------------------------

  /** A quiet step at which nothing can be dropped. */
  predicate Harmless(a: Act) {
    QuietAct(a) && !(a.Send? && a.p.GiveUp?)
  }

  ghost predicate Calm(acts: seq<Act>) {
    forall i :: 0 <= i < |acts| ==> Harmless(acts[i])
  }

  lemma CalmJoin(x: seq<Act>, y: seq<Act>)
    requires Calm(x) && Calm(y)
    ensures Calm(x + y)
  {
  }

  lemma CalmClaim(m: nat)
    ensures Calm(Claim(m)) && Calm(Accept(m)) && Calm(Back(m))
  {
    assert Calm(Admit(m));
  }

  lemma CalmBothHold()
    ensures Calm(BothHold())
  {
    CalmClaim(0);
    CalmClaim(1);
    assert Calm(HAND_OVER) && Calm(SCHEDULE);
    CalmJoin(HAND_OVER, SCHEDULE);
    CalmJoin(HAND_OVER + SCHEDULE, Claim(0));
    CalmJoin(HAND_OVER + SCHEDULE + Claim(0), Claim(1));
  }

  lemma CalmRun(states: seq<State>, steps: seq<Step>, row: Row, now: int, acts: seq<Act>, c: Cell)
    requires IsRunOf(states, steps, row, now, acts, c) && Calm(acts)
    ensures QuietDb(steps)
  {
    forall i | 0 <= i < |steps| && steps[i].Do? ensures QuietAct(steps[i].act) {
      assert steps[i - 1 + 1] == Do(0, acts[i - 1]);
    }
  }
}
