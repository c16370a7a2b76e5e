/** The bookkeeping of the model agrees with what can be counted in the run itself. */
module Tallies {
  import opened Domain
  import opened Protocol
  import opened Runs
  import opened Safety

  function One(b: bool): nat {
    if b then 1 else 0
  }

  ghost predicate BookOk(c: Cell, e: Effect, a: Act) {
    && e.book.marks == c.book.marks + One(Happens(DeliveryReported, c, a))
    && e.book.events == c.book.events + One(Happens(DeliveredEvent, c, a))
    && e.book.apiPubs == c.book.apiPubs + One(Happens(HandedPublish, c, a))
    && e.book.schedPubs == c.book.schedPubs + One(Happens(ScheduledPublish, c, a))
  }

  /** The record of lineage r moves by what the step counts as. */
  predicate Counts(c: Cell, a: Act, r: nat, x: Root, x': Root) {
    && x'.posts == x.posts + One(Happens(PostOf(r), c, a))
    && x'.transients == x.transients + One(Happens(TransientOf(r), c, a))
    && x'.republishes == x.republishes + One(Happens(RepublishOf(r), c, a))
    && x'.handlings == x.handlings + One(Happens(HandlingOf(r), c, a))
    && x'.reverts == x.reverts + One(Happens(RevertOf(r), c, a))
    && x'.limits == x.limits + One(Happens(LimitedOf(r), c, a))
    && x'.slept == x.slept + SleepOf(c, a, r)
  }

  /** A step that counts towards some lineage moves one message, and the record of its lineage. */
  ghost predicate RootOk(c: Cell, e: Effect, a: Act) {
    match e.change
    case Move(m, _, root) =>
      && m in c.msgs
      && Counts(c, a, c.msgs[m].root, RootOf(c, m), root)
      && root.oks == RootOf(c, m).oks + One(Happens(AcceptedPost, c, a))
      && (a.Take? ==> a.m == m) && (a.Send? ==> a.m == m) && (a.Leave? ==> a.m == m)
    case _ => !Happens(AcceptedPost, c, a) && forall r :: Counts(c, a, r, NEW_ROOT, NEW_ROOT)
  }

  lemma CountedTake(c: Cell, m: nat, a: TakeAct)
    requires TakeEnabled(c, m, a) && (a.Deliver? || a.Limit?)
    ensures RootOk(c, TakeEffect(c, m, a), Take(m, a))
  {
  }

  lemma ClaimTake(c: Cell, m: nat, a: TakeAct)
    requires TakeEnabled(c, m, a) && a.MarkSending?
    ensures RootOk(c, TakeEffect(c, m, a), Take(m, a))
  {
  }

  lemma ReadTake(c: Cell, m: nat, a: TakeAct)
    requires TakeEnabled(c, m, a) && a.Read?
    ensures RootOk(c, TakeEffect(c, m, a), Take(m, a))
  {
  }

  lemma PlainTake(c: Cell, m: nat, a: TakeAct)
    requires TakeEnabled(c, m, a) && a.Build?
    ensures RootOk(c, TakeEffect(c, m, a), Take(m, a))
  {
  }

  lemma BeginSend(c: Cell, m: nat, a: SendAct)
    requires SendEnabled(c, m, a) && a.BeginPost?
    ensures RootOk(c, SendEffect(c, m, a), Send(m, a))
  {
  }

  lemma CountedSend(c: Cell, m: nat, a: SendAct)
    requires SendEnabled(c, m, a) && a.EndPost?
    ensures RootOk(c, SendEffect(c, m, a), Send(m, a))
  {
  }

  lemma MarkSend(c: Cell, m: nat, a: SendAct)
    requires SendEnabled(c, m, a) && a.MarkDelivered?
    ensures RootOk(c, SendEffect(c, m, a), Send(m, a))
  {
  }

  lemma PlainSend(c: Cell, m: nat, a: SendAct)
    requires SendEnabled(c, m, a) && !a.BeginPost? && !a.EndPost? && !a.MarkDelivered?
    ensures RootOk(c, SendEffect(c, m, a), Send(m, a))
  {
  }

  lemma CountedLeave(c: Cell, m: nat, a: LeaveAct)
    requires LeaveEnabled(c, m, a) && (a.Republish? || a.Release?)
    ensures RootOk(c, LeaveEffect(c, m, a), Leave(m, a))
  {
  }

  lemma PlainLeave(c: Cell, m: nat, a: LeaveAct)
    requires LeaveEnabled(c, m, a) && !a.Wait? && !a.Republish? && !a.Release?
    ensures RootOk(c, LeaveEffect(c, m, a), Leave(m, a))
  {
  }

  lemma WorkerBook(c: Cell, now: int, a: Act)
    requires Enabled(c, now, a) && (a.Take? || a.Send? || a.Leave?)
    ensures BookOk(c, EffectOf(c, now, a), a)
  {
  }

  lemma StepBook(c: Cell, now: int, a: Act)
    requires Enabled(c, now, a)
    ensures BookOk(c, EffectOf(c, now, a), a)
  {
    if a.Take? || a.Send? || a.Leave? {
      WorkerBook(c, now, a);
    }
  }

  lemma PublisherRoot(c: Cell, now: int, a: Act)
    requires Enabled(c, now, a) && !a.Take? && !a.Send? && !a.Leave?
    ensures RootOk(c, EffectOf(c, now, a), a)
  {
  }

  lemma StepRoot(c: Cell, now: int, a: Act)
    requires Enabled(c, now, a)
    ensures RootOk(c, EffectOf(c, now, a), a)
  {
    match a {
      case Take(m, k) =>
        if k.Deliver? || k.Limit? {
          CountedTake(c, m, k);
        } else if k.MarkSending? {
          ClaimTake(c, m, k);
        } else if k.Read? {
          ReadTake(c, m, k);
        } else {
          PlainTake(c, m, k);
        }
      case Send(m, p) =>
        if p.BeginPost? {
          BeginSend(c, m, p);
        } else if p.EndPost? {
          CountedSend(c, m, p);
        } else if p.MarkDelivered? {
          MarkSend(c, m, p);
        } else {
          PlainSend(c, m, p);
        }
      case Leave(m, l) =>
        if l.Wait? {
        } else if l.Republish? || l.Release? {
          CountedLeave(c, m, l);
        } else {
          PlainLeave(c, m, l);
        }
      case _ => PublisherRoot(c, now, a);
    }
  }

  lemma CellStep(states: seq<State>, steps: seq<Step>, n: nat, i: nat)
    requires Run(states, steps) && 0 < i < |states| && n in states[i - 1].cells
    ensures n in states[i].cells
    ensures
      var c, s, step := states[i].cells[n], states[i - 1], steps[i - 1];
      if step.Do? && step.n == n then Enabled(s.cells[n], s.now, step.act) && c == Apply(s.cells[n], s.now, step.act)
      else c == s.cells[n]
  {
    assert StepAt(states, steps, i - 1);
  }

  /** Before a notification is inserted no step belongs to it; it is inserted pending. */
  lemma Birth(states: seq<State>, steps: seq<Step>, n: nat, i: nat)
    requires Run(states, steps) && 0 < i < |states|
    ensures n !in states[i].cells ==> n !in states[i - 1].cells
    ensures n !in states[i - 1].cells ==> !(steps[i - 1].Do? && steps[i - 1].n == n)
    ensures n !in states[i - 1].cells && n in states[i].cells ==>
              && steps[i - 1].Commit? && n in steps[i - 1].rows && steps[i - 1].rows[n].status.Pending?
              && states[i].cells[n] == NewCell(steps[i - 1].rows[n])
  {
    assert StepAt(states, steps, i - 1);
    assert steps[i - 1].Commit? && n in steps[i - 1].rows ==>
        FreshRow(states[i - 1].catalog, steps[i - 1].catalog, n, steps[i - 1].rows[n]);
  }

  lemma {:induction false} Unborn(states: seq<State>, steps: seq<Step>, k: Kind, n: nat, r: nat, i: nat)
    requires Run(states, steps) && i < |states| && n !in states[i].cells
    ensures Tally(states, steps, k, n, i) == 0 && SleepTally(states, steps, n, r, i) == 0
  {
    if i > 0 {
      Birth(states, steps, n, i);
      Unborn(states, steps, k, n, r, i - 1);
    }
  }

  lemma {:induction false} BooksTally(states: seq<State>, steps: seq<Step>, n: nat, i: nat)
    requires Run(states, steps) && i < |states| && n in states[i].cells
    ensures var b := states[i].cells[n].book;
      && b.marks == Tally(states, steps, DeliveryReported, n, i)
      && b.events == Tally(states, steps, DeliveredEvent, n, i)
      && b.apiPubs == Tally(states, steps, HandedPublish, n, i)
      && b.schedPubs == Tally(states, steps, ScheduledPublish, n, i)
  {
    assert i > 0;
    if n in states[i - 1].cells {
      BooksTally(states, steps, n, i - 1);
      CellStep(states, steps, n, i);
      if steps[i - 1].Do? && steps[i - 1].n == n {
        StepBook(states[i - 1].cells[n], states[i - 1].now, steps[i - 1].act);
      }
    } else {
      Birth(states, steps, n, i);
      Unborn(states, steps, DeliveryReported, n, 0, i - 1);
      Unborn(states, steps, DeliveredEvent, n, 0, i - 1);
      Unborn(states, steps, HandedPublish, n, 0, i - 1);
      Unborn(states, steps, ScheduledPublish, n, 0, i - 1);
    }
  }

  function RootAt(c: Cell, r: nat): Root {
    if r in c.roots then c.roots[r] else NEW_ROOT
  }

  lemma RootInstall(c: Cell, e: Effect, a: Act, r: nat)
    requires Ids(c) && (e.change.Keep? || e.change.m in c.msgs) && RootOk(c, e, a)
    ensures Counts(c, a, r, RootAt(c, r), RootAt(Install(c, e), r))
  {
    if e.change.Move? && c.msgs[e.change.m].root == r {
      assert r in c.roots;
    } else if e.change.Move? {
    } else {
      assert Counts(c, a, r, NEW_ROOT, NEW_ROOT);
    }
    RootElsewhere(c, e, r);
  }

  lemma RootElsewhere(c: Cell, e: Effect, r: nat)
    requires Ids(c) && (e.change.Keep? || e.change.m in c.msgs)
    ensures RootAt(Install(c, e), r)
            == if e.change.Move? && c.msgs[e.change.m].root == r then e.change.root else RootAt(c, r)
  {
    if e.change.Move? {
      assert c.msgs[e.change.m].root in c.roots;
    }
  }

  predicate OfLineage(k: Kind) {
    k.PostOf? || k.TransientOf? || k.RepublishOf? || k.HandlingOf? || k.RevertOf? || k.LimitedOf?
  }

  function Recorded(x: Root, k: Kind): nat
    requires OfLineage(k)
  {
    match k
    case PostOf(_) => x.posts
    case TransientOf(_) => x.transients
    case RepublishOf(_) => x.republishes
    case HandlingOf(_) => x.handlings
    case RevertOf(_) => x.reverts
    case LimitedOf(_) => x.limits
  }

  lemma RecordedStep(c: Cell, now: int, a: Act, k: Kind)
    requires Ids(c) && Enabled(c, now, a) && OfLineage(k)
    ensures Recorded(RootAt(Apply(c, now, a), k.r), k) == Recorded(RootAt(c, k.r), k) + One(Happens(k, c, a))
  {
    StepRoot(c, now, a);
    RootInstall(c, EffectOf(c, now, a), a, k.r);
  }

  lemma SleptStep(c: Cell, now: int, a: Act, r: nat)
    requires Ids(c) && Enabled(c, now, a)
    ensures RootAt(Apply(c, now, a), r).slept == RootAt(c, r).slept + SleepOf(c, a, r)
  {
    StepRoot(c, now, a);
    RootInstall(c, EffectOf(c, now, a), a, r);
  }

  // ---- accepted posts --------------------------------------------------------------------------

  /** The lineages whose webhook post was answered 2xx. */
  function AcceptedRoots(c: Cell): set<nat> {
    set r | r in c.roots && c.roots[r].oks > 0
  }

  lemma AcceptedInstall(c: Cell, e: Effect, a: Act)
    requires Ids(c) && (e.change.Keep? || e.change.m in c.msgs) && RootOk(c, e, a)
    requires Happens(AcceptedPost, c, a) && e.change.Move? ==> RootOf(c, e.change.m).oks == 0
    ensures |AcceptedRoots(Install(c, e))| == |AcceptedRoots(c)| + One(Happens(AcceptedPost, c, a))
  {
    var c' := Install(c, e);
    if Happens(AcceptedPost, c, a) {
      var r := c.msgs[e.change.m].root;
      assert r !in AcceptedRoots(c);
      assert AcceptedRoots(c') == AcceptedRoots(c) + {r};
    } else {
      assert AcceptedRoots(c') == AcceptedRoots(c);
    }
  }

  /** Messages for which the webhook may still accept a post, unless a worker dies. */
  predicate MayPost(loc: Loc) {
    || loc.InQueue?
    || (Running(loc)
        && !loc.pc.Marking? && !loc.pc.Failing? && !Spent(loc.pc))
  }

  function Chances(c: Cell): set<nat> {
    set m | m in c.msgs && MayPost(c.msgs[m].loc)
  }

  predicate Taken(c: Cell, e: Effect)
    requires e.change.Keep? || e.change.m in c.msgs
  {
    !e.change.Keep? && MayPost(c.msgs[e.change.m].loc)
  }

  predicate Given(e: Effect) {
    e.change.Move? && MayPost(e.change.loc)
  }

  predicate Made(e: Effect) {
    e.spawn.Fresh? || (e.spawn.Child? && MayPost(e.spawn.msg.loc))
  }

  /** What the step does to the number of chances. */
  predicate ChanceOk(c: Cell, e: Effect, a: Act)
    requires e.change.Keep? || e.change.m in c.msgs
  {
    One(Given(e)) + One(Made(e)) + One(Happens(AcceptedPost, c, a))
    <= One(Taken(c, e)) + One(Happens(HandedPublish, c, a)) + One(Happens(ScheduledPublish, c, a))
       + One(Happens(WorkerGone, c, a))
  }

  lemma SendChances(c: Cell, m: nat, a: SendAct)
    requires SendEnabled(c, m, a)
    ensures ChanceOk(c, SendEffect(c, m, a), Send(m, a))
  {
  }

  lemma TakeChances(c: Cell, m: nat, a: TakeAct)
    requires TakeEnabled(c, m, a)
    ensures ChanceOk(c, TakeEffect(c, m, a), Take(m, a))
  {
  }

  lemma LeaveChances(c: Cell, m: nat, a: LeaveAct)
    requires LeaveEnabled(c, m, a)
    ensures ChanceOk(c, LeaveEffect(c, m, a), Leave(m, a))
  {
  }

  function ChancesOut(c: Cell, e: Effect): set<nat>
    requires e.change.Keep? || e.change.m in c.msgs
  {
    if Taken(c, e) then {e.change.m} else {}
  }

  function ChancesIn(c: Cell, e: Effect): set<nat> {
    (if Given(e) then {e.change.m} else {}) + (if Made(e) then {c.next} else {})
  }

  lemma ChanceAt(c: Cell, e: Effect, m: nat)
    requires Ids(c) && (e.change.Keep? || e.change.m in c.msgs)
    ensures m in Chances(Install(c, e)) <==> m in ChancesIn(c, e) || (m in Chances(c) && m !in ChancesOut(c, e))
  {
  }

  lemma ChancesAfter(c: Cell, e: Effect, after: set<nat>)
    requires Ids(c) && (e.change.Keep? || e.change.m in c.msgs) && after == Chances(Install(c, e))
    ensures after == Chances(c) - ChancesOut(c, e) + ChancesIn(c, e)
  {
    forall m: nat ensures m in after <==> m in ChancesIn(c, e) || (m in Chances(c) && m !in ChancesOut(c, e)) {
      ChanceAt(c, e, m);
    }
  }

  lemma ChancesCount(c: Cell, e: Effect)
    requires Ids(c) && (e.change.Keep? || e.change.m in c.msgs)
    ensures |Chances(c) - ChancesOut(c, e) + ChancesIn(c, e)| + One(Taken(c, e))
            == |Chances(c)| + One(Given(e)) + One(Made(e))
  {
    assert c.next !in c.msgs;
    Exchange(Chances(c), ChancesOut(c, e), if Given(e) then {e.change.m} else {}, if Made(e) then {c.next} else {});
  }

  lemma ChancesInstall(c: Cell, e: Effect)
    requires Ids(c) && (e.change.Keep? || e.change.m in c.msgs)
    ensures |Chances(Install(c, e))| + One(Taken(c, e)) == |Chances(c)| + One(Given(e)) + One(Made(e))
  {
    ChancesAfter(c, e, Chances(Install(c, e)));
    ChancesCount(c, e);
  }

  lemma Exchange(s: set<nat>, out: set<nat>, given: set<nat>, made: set<nat>)
    requires out <= s && given !! (s - out) && made !! (s - out) && given !! made
    ensures |s - out + (given + made)| + |out| == |s| + |given| + |made|
  {
    assert s - out + (given + made) == s - out + given + made;
  }

  /** Chances come from publishes and from workers that died, and accepted posts use them up. */
  lemma StepChances(c: Cell, now: int, a: Act)
    requires Ids(c) && Enabled(c, now, a)
    ensures |Chances(Apply(c, now, a))| + One(Happens(AcceptedPost, c, a))
            <= |Chances(c)| + One(Happens(HandedPublish, c, a)) + One(Happens(ScheduledPublish, c, a))
               + One(Happens(WorkerGone, c, a))
  {
    match a {
      case Take(m, k) => TakeChances(c, m, k);
      case Send(m, p) => SendChances(c, m, p);
      case Leave(m, l) => LeaveChances(c, m, l);
      case _ =>
    }
    ChancesInstall(c, EffectOf(c, now, a));
  }
}
