/** Where the status of a row, its provider id and the messages about it come from, in every run and
    whatever fails: which step writes what, and what must have happened before. */
module Origins {
  import opened Domain
  import opened Protocol
  import opened Runs
  import opened Safety
  import opened Tallies
  import opened Theorems

  // ---- the row -----------------------------------------------------------------------------------

  predicate MarksQueued(a: Act) {
    (a.Api? && a.t.MarkTask?) || (a.Relay? && a.r.RCommit?) || (a.Sched? && a.s.SCommit?)
  }

  /** The step runs an UPDATE of the row and it takes effect if it matches. */
  predicate Updates(a: Act) {
    match a
    case Api(t) => t.MarkTask? && t.db != Fault(false)
    case Relay(_, r) => r.RCommit? && r.db != Fault(false)
    case Sched(s) => s.SCommit? && s.db != Fault(false)
    case Take(_, k) => k.MarkSending? && k.db != Fault(false)
    case Send(_, p) => (p.MarkDelivered? && p.db != Fault(false)) || (p.MarkFailed? && p.db != Fault(false))
    case Leave(_, l) => l.Release? && l.db != Fault(false)
    case Cancel(db) => db != Fault(false)
  }

  /** The status it sets, when it matches. */
  function StatusSet(a: Act, from: Status): Option<Status> {
    match a
    case Take(_, _) => if from in {Pending, Queued, Sending} then Some(Sending) else None
    case Send(_, p) =>
      if p.MarkDelivered? then if from == Sending then Some(Delivered) else None
      else if from in {Pending, Queued, Sending} then Some(Failed)
      else None
    case Leave(_, _) => if from == Sending then Some(Queued) else None
    case Cancel(_) => if from in {Pending, Queued} then Some(Cancelled) else None
    case _ => if from == Pending then Some(Queued) else None
  }

  /** The webhook id the step's worker holds for the row. */
  function IdHeld(c: Cell, a: Act): Option<string> {
    if a.Send? && a.m in c.msgs && Running(c.msgs[a.m].loc) && c.msgs[a.m].loc.pc.Marking?
    then c.msgs[a.m].loc.pc.mid else None
  }

  /** What a step does to the row: an UPDATE that takes effect and matches sets the status, and when it
      records a delivery the webhook's id; every other step leaves the row alone. */
  predicate RowStep(c: Cell, a: Act, row: Row) {
    var to := StatusSet(a, c.row.status);
    if Updates(a) && to.Some?
    then row == c.row.(status := to.value, provider := if to.value.Delivered? then IdHeld(c, a) else None)
    else row == c.row
  }

  lemma PublisherRow(c: Cell, now: int, a: Act)
    requires Outcome(c) && Enabled(c, now, a) && !a.Take? && !a.Send? && !a.Leave?
    ensures RowStep(c, a, EffectOf(c, now, a).row)
  {
  }

  lemma WorkerRow(c: Cell, now: int, a: Act)
    requires Outcome(c) && Enabled(c, now, a) && (a.Take? || a.Send? || a.Leave?)
    ensures RowStep(c, a, EffectOf(c, now, a).row)
  {
  }

  lemma RowLaw(c: Cell, now: int, a: Act)
    requires Safe(c, now) && Enabled(c, now, a)
    ensures RowStep(c, a, Apply(c, now, a).row)
  {
    if a.Take? || a.Send? || a.Leave? {
      WorkerRow(c, now, a);
    } else {
      PublisherRow(c, now, a);
    }
  }

  /** In every run each step does to each row exactly this. */
  lemma RowSteps(states: seq<State>, steps: seq<Step>, n: nat, i: nat)
    requires Run(states, steps) && i < |steps| && n in states[i].cells
    ensures n in states[i + 1].cells
    ensures
      var row := states[i + 1].cells[n].row;
      if Does(states, steps, i, n) then RowStep(states[i].cells[n], steps[i].act, row)
      else row == states[i].cells[n].row
  {
    CellStep(states, steps, n, i + 1);
    CellSafe(states, steps, i, n);
    if Does(states, steps, i, n) {
      RowLaw(states[i].cells[n], states[i].now, steps[i].act);
    }
  }

  /** Where each status comes from: never back to pending; queued from pending by MarkQueued, or from
      sending by a release; sending by MarkSending; delivered only from sending by MarkDelivered; failed
      only by MarkFailed and cancelled only by a cancel, from a status their statements list. */
  lemma StatusFrom(states: seq<State>, steps: seq<Step>, n: nat, i: nat)
    requires Run(states, steps) && i < |steps| && n in states[i].cells && n in states[i + 1].cells
    requires states[i + 1].cells[n].row.status != states[i].cells[n].row.status
    ensures Does(states, steps, i, n)
    ensures
      var (from, to, a) := (states[i].cells[n].row.status, states[i + 1].cells[n].row.status, steps[i].act);
      match to
      case Pending => false
      case Queued => (from == Pending && MarksQueued(a)) || (from == Sending && a.Leave? && a.l.Release?)
      case Sending => from in {Pending, Queued} && a.Take? && a.k.MarkSending?
      case Delivered => from == Sending && a.Send? && a.p.MarkDelivered?
      case Failed => from in {Pending, Queued, Sending} && a.Send? && a.p.MarkFailed?
      case Cancelled => from in {Pending, Queued} && a.Cancel?
  {
    RowSteps(states, steps, n, i);
  }

  // ---- the webhook's answer ------------------------------------------------------------------------

  /** Before state i a post for n was answered like this. */
  ghost predicate Answered(steps: seq<Step>, n: nat, i: nat, res: PostResult) {
    exists j: nat, m: nat :: j < i && j < |steps| && steps[j] == Do(n, Send(m, EndPost(res)))
  }

  predicate HoldsId(c: Cell, m: nat, mid: Option<string>) {
    m in c.msgs && Running(c.msgs[m].loc) && c.msgs[m].loc.pc.Marking? && c.msgs[m].loc.pc.mid == mid
  }

  /** A message is at a position where it, or the message whose connection was lost, was before, or where
      the step moved it. */
  lemma PcFrom(c: Cell, now: int, a: Act, k: nat) returns (m: nat)
    requires Ids(c) && Enabled(c, now, a) && Handling(Apply(c, now, a), k)
    ensures
      var (pc, change) := (Apply(c, now, a).msgs[k].loc.pc, EffectOf(c, now, a).change);
      || (Handling(c, m) && c.msgs[m].loc.pc == pc)
      || (change.Move? && change.m == k && Running(change.loc) && change.loc.pc == pc)
  {
    m := if k in c.msgs then k else if a.Leave? then a.m else k;
    SpawnedRuns(c, now, a);
  }

  /** A message put into play by a step is queued, except the handler of a lost connection. */
  lemma SpawnedRuns(c: Cell, now: int, a: Act)
    requires Enabled(c, now, a)
    ensures
      var spawn := EffectOf(c, now, a).spawn;
      spawn.Child? && Running(spawn.msg.loc) ==>
        a.Leave? && Handling(c, a.m) && spawn.msg.loc == Orphan(c.msgs[a.m].loc.pc)
  {
  }

  lemma MovedToMarking(c: Cell, now: int, a: Act)
    requires Enabled(c, now, a)
    ensures
      var change := EffectOf(c, now, a).change;
      change.Move? && Running(change.loc) && change.loc.pc.Marking? ==>
        var mid := change.loc.pc.mid;
        HoldsId(c, change.m, mid) || a == Send(change.m, EndPost(Accepted(mid)))
  {
  }

  /** A worker that holds an id just got it from the webhook, or it, or the handler it outlived, held
      it before. */
  lemma IdFrom(c: Cell, now: int, a: Act, k: nat, mid: Option<string>) returns (m: nat)
    requires Ids(c) && Enabled(c, now, a) && HoldsId(Apply(c, now, a), k, mid)
    ensures HoldsId(c, m, mid) || a == Send(m, EndPost(Accepted(mid)))
  {
    m := PcFrom(c, now, a, k);
    MovedToMarking(c, now, a);
    if !HoldsId(c, m, mid) {
      m := k;
    }
  }

  ghost predicate IdsAnswered(c: Cell, steps: seq<Step>, n: nat, i: nat) {
    && (forall m, mid :: HoldsId(c, m, mid) ==> Answered(steps, n, i, Accepted(mid)))
    && (c.row.status.Delivered? ==> Answered(steps, n, i, Accepted(c.row.provider)))
  }

  lemma {:induction false} RunAnswered(states: seq<State>, steps: seq<Step>, n: nat, i: nat)
    requires Run(states, steps) && i < |states| && n in states[i].cells
    ensures IdsAnswered(states[i].cells[n], steps, n, i)
  {
    assert i > 0;
    Birth(states, steps, n, i);
    if n in states[i - 1].cells {
      RunAnswered(states, steps, n, i - 1);
      AnsweredStep(states, steps, n, i - 1);
    }
  }

  lemma AnsweredLater(steps: seq<Step>, n: nat, i: nat, res: PostResult)
    ensures Answered(steps, n, i, res) ==> Answered(steps, n, i + 1, res)
    ensures i < |steps| && steps[i].Do? && steps[i].n == n && steps[i].act.Send? && steps[i].act.p == EndPost(res) ==>
              Answered(steps, n, i + 1, res)
  {
    if i < |steps| && steps[i].Do? && steps[i].n == n && steps[i].act.Send? && steps[i].act.p == EndPost(res) {
      assert steps[i] == Do(n, Send(steps[i].act.m, EndPost(res)));
    }
  }

  lemma AnsweredStep(states: seq<State>, steps: seq<Step>, n: nat, i: nat)
    requires Run(states, steps) && i < |steps| && n in states[i].cells && IdsAnswered(states[i].cells[n], steps, n, i)
    ensures n in states[i + 1].cells && IdsAnswered(states[i + 1].cells[n], steps, n, i + 1)
  {
    RowSteps(states, steps, n, i);
    CellStep(states, steps, n, i + 1);
    CellSafe(states, steps, i, n);
    var c, c' := states[i].cells[n], states[i + 1].cells[n];
    forall k, mid | HoldsId(c', k, mid) ensures Answered(steps, n, i + 1, Accepted(mid)) {
      if Does(states, steps, i, n) {
        var m := IdFrom(c, states[i].now, steps[i].act, k, mid);
      }
      AnsweredLater(steps, n, i, Accepted(mid));
    }
    if c'.row.status.Delivered? {
      if c.row != c'.row {
        assert HoldsId(c, steps[i].act.m, c'.row.provider);
      }
      AnsweredLater(steps, n, i, Accepted(c'.row.provider));
    }
  }

  /** A row is recorded as delivered only after the webhook accepted it, and its provider id is the one
      that answer carried. */
  lemma DeliveredWasAccepted(states: seq<State>, steps: seq<Step>, n: nat, i: nat) returns (j: nat, m: nat)
    requires Run(states, steps) && i < |states| && n in states[i].cells && states[i].cells[n].row.status.Delivered?
    ensures j < i && steps[j] == Do(n, Send(m, EndPost(Accepted(states[i].cells[n].row.provider))))
  {
    RunAnswered(states, steps, n, i);
    j, m :| j < i && j < |steps|
            && steps[j] == Do(n, Send(m, EndPost(Accepted(states[i].cells[n].row.provider))));
  }

  // ---- refusals ----------------------------------------------------------------------------------------

  /** A message that can never be built, or an answer that is not retried. */
  predicate Refusal(c: Cell, a: Act) {
    || (a.Take? && a.k == Build(BuildPermanent))
    || (a.Send? && a.p.EndPost? && (a.p.res.Permanent? || a.p.res.Unknown?))
    || (a.Send? && a.p == EndPost(Transient) && a.m in c.msgs && c.msgs[a.m].retry >= 5)
  }

  /** Before state i the message of n could not be built, or a post for it was refused. */
  ghost predicate Refused(states: seq<State>, steps: seq<Step>, n: nat, i: nat) {
    exists j: nat :: j < i && j < |steps| && j < |states| && Does(states, steps, j, n)
                     && Refusal(states[j].cells[n], steps[j].act)
  }

  predicate IsFailing(c: Cell, m: nat) {
    Handling(c, m) && c.msgs[m].loc.pc.Failing?
  }

  ghost predicate FailuresRefused(c: Cell, states: seq<State>, steps: seq<Step>, n: nat, i: nat) {
    (exists m :: IsFailing(c, m)) || c.row.status.Failed? ==> Refused(states, steps, n, i)
  }

  lemma MovedToFailing(c: Cell, now: int, a: Act)
    requires Enabled(c, now, a)
    ensures
      var change := EffectOf(c, now, a).change;
      change.Move? && Running(change.loc) && change.loc.pc.Failing? ==> Refusal(c, a)
  {
  }

  lemma FailedStep(states: seq<State>, steps: seq<Step>, n: nat, i: nat)
    requires Run(states, steps) && i < |steps| && n in states[i].cells
    requires FailuresRefused(states[i].cells[n], states, steps, n, i)
    ensures n in states[i + 1].cells && FailuresRefused(states[i + 1].cells[n], states, steps, n, i + 1)
  {
    RowSteps(states, steps, n, i);
    CellStep(states, steps, n, i + 1);
    CellSafe(states, steps, i, n);
    var c, c' := states[i].cells[n], states[i + 1].cells[n];
    if Does(states, steps, i, n) {
      if m :| IsFailing(c', m) {
        MovedToFailing(c, states[i].now, steps[i].act);
        var k := PcFrom(c, states[i].now, steps[i].act, m);
        assert IsFailing(c, k) || Refusal(c, steps[i].act);
      }
      if c'.row.status.Failed? && !c.row.status.Failed? {
        assert IsFailing(c, steps[i].act.m);
      }
    }
  }

  lemma {:induction false} RunRefused(states: seq<State>, steps: seq<Step>, n: nat, i: nat)
    requires Run(states, steps) && i < |states| && n in states[i].cells
    ensures FailuresRefused(states[i].cells[n], states, steps, n, i)
  {
    assert i > 0;
    Birth(states, steps, n, i);
    if n in states[i - 1].cells {
      RunRefused(states, steps, n, i - 1);
      FailedStep(states, steps, n, i - 1);
    }
  }

  /** A row fails only after its message could not be built, or the webhook refused it for good or
      failed it with no retry left. */
  lemma FailedWasRefused(states: seq<State>, steps: seq<Step>, n: nat, i: nat) returns (j: nat)
    requires Run(states, steps) && i < |states| && n in states[i].cells && states[i].cells[n].row.status.Failed?
    ensures j < i && Does(states, steps, j, n) && Refusal(states[j].cells[n], steps[j].act)
  {
    RunRefused(states, steps, n, i);
    j :| j < i && j < |steps| && Does(states, steps, j, n) && Refusal(states[j].cells[n], steps[j].act);
  }

  // ---- messages and outbox entries -------------------------------------------------------------------------

  predicate Publishes1(a: Act) {
    a == Api(TryPublish(true)) || (a.Relay? && a.r == RPublish(true)) || a == Sched(SPublish(true))
  }

  /** A new message is a first publish, without retries; the next retry of the message republished; or the
      orphaned handling of a message whose connection was lost. */
  predicate NewMsg(c: Cell, a: Act, k: nat, msg: Msg) {
    || (Publishes1(a) && msg == Msg(k, 0, InQueue))
    || (a.Leave? && a.l == Republish(true) && Handling(c, a.m)
        && msg == Msg(c.msgs[a.m].root, c.msgs[a.m].retry + 1, InQueue))
    || (a.Leave? && a.l == LoseConnection && Handling(c, a.m) && msg == c.msgs[a.m].(loc := Orphan(c.msgs[a.m].loc.pc)))
  }

  /** The message is settled for good. */
  predicate Settles(c: Cell, a: Act, k: nat) {
    a.Leave? && a.m == k && Handling(c, k) && (a.l.Settle? || (a.l.Crash? && c.msgs[k].loc.Orphan?))
  }

  predicate AddsMsg(a: Act) {
    Publishes1(a) || (a.Leave? && (a.l == Republish(true) || a.l == LoseConnection))
  }

  /** Exactly those steps add a message, exactly one; no step changes the root or the retry count of a message
      that stays; and only the message that is settled goes. */
  ghost predicate MsgStep(c: Cell, a: Act, c': Cell) {
    && (forall k :: k in c'.msgs && k !in c.msgs ==> k == c.next && NewMsg(c, a, k, c'.msgs[k]))
    && (AddsMsg(a) <==> c.next in c'.msgs)
    && (forall k :: k in c.msgs && k in c'.msgs ==>
          c'.msgs[k].root == c.msgs[k].root && c'.msgs[k].retry == c.msgs[k].retry)
    && (forall k :: k in c.msgs && k !in c'.msgs ==> Settles(c, a, k))
  }

  lemma SpawnLaw(c: Cell, now: int, a: Act)
    requires Ids(c) && Enabled(c, now, a)
    ensures
      var e := EffectOf(c, now, a);
      && (AddsMsg(a) <==> !e.spawn.NoSpawn?)
      && (e.spawn.Fresh? <==> Publishes1(a))
      && (e.spawn.Child? ==> NewMsg(c, a, c.next, e.spawn.msg))
      && (e.change.Remove? ==> Settles(c, a, e.change.m))
  {
  }

  lemma MsgLaw(c: Cell, now: int, a: Act)
    requires Ids(c) && Enabled(c, now, a)
    ensures MsgStep(c, a, Apply(c, now, a))
  {
    SpawnLaw(c, now, a);
  }

  /** An outbox entry is added exactly by an Enqueue that takes effect, and marked published exactly by a
      relay commit that takes effect on a pending row, or by a relay that drains it. */
  ghost predicate EntryStep(c: Cell, a: Act, c': Cell) {
    && (forall o :: o in c.entries ==> o in c'.entries)
    && (forall o :: o in c'.entries && o !in c.entries ==>
          a.Api? && a.t.Enqueue? && a.t.id == o && c'.entries[o] == Entry(false, Idle))
    && (a.Api? && a.t.Enqueue? ==> (a.t.id in c'.entries <==> a.t.db != Fault(false)))
    && (forall o :: o in c.entries && c'.entries[o].published != c.entries[o].published ==>
          && c'.entries[o].published && a.Relay? && a.o == o
          && ((a.r.RCommit? && c.row.status.Pending?) || a.r.RDrain?))
    && (a.Relay? && a.o in c.entries && !c.entries[a.o].published && a.r.RCommit? ==>
          (c'.entries[a.o].published <==> a.r.db != Fault(false) && c.row.status.Pending?))
    && (a.Relay? && a.o in c.entries && !c.entries[a.o].published && a.r.RDrain? ==>
          (c'.entries[a.o].published <==> a.r.db != Fault(false)))
  }

  lemma TaskEntries(c: Cell, now: int, a: Act)
    requires Ids(c) && Enabled(c, now, a) && a.Api?
    ensures EntryStep(c, a, Apply(c, now, a))
  {
  }

  lemma RelayEntries(c: Cell, now: int, a: Act)
    requires Ids(c) && Enabled(c, now, a) && a.Relay?
    ensures EntryStep(c, a, Apply(c, now, a))
  {
  }

  lemma EntryLaw(c: Cell, now: int, a: Act)
    requires Ids(c) && Enabled(c, now, a)
    ensures EntryStep(c, a, Apply(c, now, a))
  {
    if a.Api? {
      TaskEntries(c, now, a);
    } else if a.Relay? {
      RelayEntries(c, now, a);
    } else {
      assert EffectOf(c, now, a).entry.KeepEntries?;
    }
  }

  /** In every run each step does to the messages and outbox entries of each notification exactly this. */
  lemma BrokerSteps(states: seq<State>, steps: seq<Step>, n: nat, i: nat)
    requires Run(states, steps) && i < |steps| && n in states[i].cells
    ensures n in states[i + 1].cells
    ensures
      var (c, c') := (states[i].cells[n], states[i + 1].cells[n]);
      if Does(states, steps, i, n) then MsgStep(c, steps[i].act, c') && EntryStep(c, steps[i].act, c')
      else c'.msgs == c.msgs && c'.entries == c.entries
  {
    CellStep(states, steps, n, i + 1);
    CellSafe(states, steps, i, n);
    if Does(states, steps, i, n) {
      MsgLaw(states[i].cells[n], states[i].now, steps[i].act);
      EntryLaw(states[i].cells[n], states[i].now, steps[i].act);
    }
  }
}
