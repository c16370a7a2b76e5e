/** One lineage is an initial publish and every message republished from it.  Without worker
    crashes a lineage is a single token, and the webhook posts it makes are accounted for. */
module Lineage {
  import opened Domain
  import opened Protocol
  import opened Safety
  import opened Coverage

  /** Total of the first n backoff delays, without jitter, in nanoseconds. */
  function BaseSleep(n: nat): nat {
    if n == 0 then 0 else BaseSleep(n - 1) + BackoffMs(n - 1) * 1_000_000
  }

  predicate SleptFor(slept: nat, n: nat) {
    BaseSleep(n) <= slept <= BaseSleep(n) + n * (JITTER - 1)
  }

  /** At most one live message per lineage. */
  ghost predicate OneToken(c: Cell) {
    forall m1, m2 ::
      Alive(c, m1) && Alive(c, m2) && c.msgs[m1].root == c.msgs[m2].root ==> m1 == m2
  }

  predicate Bounds(r: Root) {
    && r.oks <= 1
    && r.posts <= 6 + r.reverts
    && r.transients <= r.posts
    && r.handlings <= 6 + r.reverts + r.limits
    && r.republishes <= MAX_WEBHOOK_RETRIES
    && (r.reverts == 0 && r.posts > 5 ==> r.republishes == 5)
    && (r.reverts == 0 && r.republishes == 5 ==> SleptFor(r.slept, 5))
  }

  /** The books of a lineage whose live message is `msg`. */
  predicate Balanced(r: Root, msg: Msg)
    requires Live(msg.loc)
  {
    var sofar := msg.retry + r.reverts;
    var idle := msg.loc.InQueue? || msg.loc.pc == Done(Requeue);
    && r.handlings == sofar + r.limits + (if idle then 0 else 1)
    && (if !idle && msg.loc.pc.Marking? then r.oks == 1 else r.oks == 0)
    && r.republishes == msg.retry
    && (if idle || !PastClaim(msg.loc.pc) || msg.loc.pc.Sendable? then
          r.posts == r.transients == sofar
        else if msg.loc.pc.Posting? || msg.loc.pc.Marking? then
          r.posts == sofar + 1 && r.transients == sofar
        else if msg.loc.pc.Failing? then
          sofar <= r.transients <= r.posts == sofar + 1
        else
          r.posts == r.transients == sofar + 1)
    && (r.reverts == 0 && (idle || !msg.loc.pc.Releasing?) ==>
          SleptFor(r.slept, if !idle && msg.loc.pc.Republishing? then msg.retry + 1 else msg.retry))
  }

  ghost predicate Accounted(c: Cell) {
    && (forall r :: r in c.roots ==> Bounds(c.roots[r]))
    && (forall m {:trigger Alive(c, m)} :: Alive(c, m) ==> Balanced(RootOf(c, m), c.msgs[m]))
  }

  ghost predicate Traced(c: Cell) {
    OneToken(c) && Accounted(c)
  }

  predicate Crashing(a: Act) {
    a.Leave? && (a.l.Crash? || a.l.LoseConnection?)
  }

  /** A step hands the token on, keeps it, or retires it; it never makes a second one. */
  ghost predicate TracedOk(c: Cell, e: Effect) {
    match e.change
    case Keep => !e.spawn.Child?
    case Remove(m) => !Alive(c, m) && e.spawn.NoSpawn?
    case Move(m, loc, root) =>
      && m in c.msgs && c.msgs[m].root in c.roots
      && Bounds(root)
      && (if !Alive(c, m) then !Live(loc) && root == RootOf(c, m) && e.spawn.NoSpawn?
          else if Live(loc) then Balanced(root, c.msgs[m].(loc := loc)) && e.spawn.NoSpawn?
          else
            e.spawn.NoSpawn? ||
            (e.spawn.Child? && e.spawn.msg.root == c.msgs[m].root && Live(e.spawn.msg.loc)
             && Balanced(root, e.spawn.msg)))
  }

  lemma InstallOneToken(c: Cell, e: Effect, m1: nat, m2: nat)
    requires e.change.Keep? || e.change.m in c.msgs
    requires Ids(c) && OneToken(c) && TracedOk(c, e)
    requires Alive(Install(c, e), m1) && Alive(Install(c, e), m2)
    requires Install(c, e).msgs[m1].root == Install(c, e).msgs[m2].root
    ensures m1 == m2
  {
    assert m1 in c.msgs ==> Alive(c, m1);
    assert m2 in c.msgs ==> Alive(c, m2);
    if e.change.Move? && Alive(c, e.change.m) {
      assert m1 in c.msgs && c.msgs[m1].root == c.msgs[e.change.m].root ==> m1 == e.change.m;
      assert m2 in c.msgs && c.msgs[m2].root == c.msgs[e.change.m].root ==> m2 == e.change.m;
    }
  }

  lemma InstallBalanced(c: Cell, e: Effect, m: nat)
    requires e.change.Keep? || e.change.m in c.msgs
    requires Ids(c) && Traced(c) && TracedOk(c, e) && Alive(Install(c, e), m)
    ensures Balanced(RootOf(Install(c, e), m), Install(c, e).msgs[m])
  {
    if m in c.msgs {
      assert Alive(c, m);
      if e.change.Move? && m != e.change.m && Alive(c, e.change.m) {
        assert c.msgs[m].root != c.msgs[e.change.m].root;
      }
    }
  }

  lemma InstallTraced(c: Cell, e: Effect)
    requires e.change.Keep? || e.change.m in c.msgs
    requires Ids(c) && Traced(c) && TracedOk(c, e)
    ensures Traced(Install(c, e))
  {
    var c' := Install(c, e);
    forall m | Alive(c', m) ensures Balanced(RootOf(c', m), c'.msgs[m]) {
      InstallBalanced(c, e, m);
    }
    forall m1, m2 | Alive(c', m1) && Alive(c', m2) && c'.msgs[m1].root == c'.msgs[m2].root ensures m1 == m2 {
      InstallOneToken(c, e, m1, m2);
    }
  }

  lemma BackoffTotals()
    ensures BaseSleep(0) == 0
    ensures BaseSleep(1) == 250_000_000
    ensures BaseSleep(2) == 750_000_000
    ensures BaseSleep(3) == 1_750_000_000
    ensures BaseSleep(4) == 3_750_000_000
    ensures BaseSleep(5) == 7_750_000_000
  {
    assert Pow2(1) == 2 && Pow2(2) == 4 && Pow2(3) == 8 && Pow2(4) == 16;
    assert BackoffMs(0) == 250 && BackoffMs(1) == 500 && BackoffMs(2) == 1000;
    assert BackoffMs(3) == 2000 && BackoffMs(4) == 4000;
    assert BaseSleep(1) == BaseSleep(0) + 250_000_000;
    assert BaseSleep(2) == BaseSleep(1) + 500_000_000;
    assert BaseSleep(3) == BaseSleep(2) + 1_000_000_000;
    assert BaseSleep(4) == BaseSleep(3) + 2_000_000_000;
  }

  lemma SleepMore(slept: nat, retry: nat, jitter: nat)
    requires SleptFor(slept, retry) && retry < MAX_WEBHOOK_RETRIES && jitter < JITTER
    ensures SleptFor(slept + BackoffMs(retry) * 1_000_000 + jitter, retry + 1)
    ensures slept + BackoffMs(retry) * 1_000_000 + jitter < 8_000_000_000
  {
    BackoffTotals();
  }

  lemma PublisherTraced(c: Cell, now: int, a: Act)
    requires Safe(c, now) && NoOrphans(c) && Traced(c) && Enabled(c, now, a) && !a.Take? && !a.Send? && !a.Leave?
    ensures TracedOk(c, EffectOf(c, now, a))
  {
  }

  lemma TakeTraced(c: Cell, now: int, m: nat, a: TakeAct)
    requires Safe(c, now) && NoOrphans(c) && Traced(c) && TakeEnabled(c, m, a)
    ensures TracedOk(c, TakeEffect(c, m, a))
  {
    if a.Deliver? || a.Limit? {
      CountedTraced(c, now, m, a);
    } else if a.MarkSending? {
      ClaimTraced(c, now, m, a);
    } else if a.Read? {
      ReadTraced(c, now, m, a);
    } else {
      assert Alive(c, m);
    }
  }

  lemma CountedTraced(c: Cell, now: int, m: nat, a: TakeAct)
    requires Safe(c, now) && NoOrphans(c) && Traced(c) && TakeEnabled(c, m, a) && (a.Deliver? || a.Limit?)
    ensures TracedOk(c, TakeEffect(c, m, a))
  {
    assert Alive(c, m);
  }

  lemma ReadTraced(c: Cell, now: int, m: nat, a: TakeAct)
    requires Safe(c, now) && NoOrphans(c) && Traced(c) && TakeEnabled(c, m, a) && a.Read?
    ensures TracedOk(c, TakeEffect(c, m, a))
  {
    assert Alive(c, m);
  }

  lemma ClaimTraced(c: Cell, now: int, m: nat, a: TakeAct)
    requires Safe(c, now) && NoOrphans(c) && Traced(c) && TakeEnabled(c, m, a) && a.MarkSending?
    ensures TracedOk(c, TakeEffect(c, m, a))
  {
    assert Alive(c, m);
  }

  lemma PostTraced(c: Cell, now: int, m: nat, a: SendAct)
    requires Safe(c, now) && NoOrphans(c) && Traced(c) && SendEnabled(c, m, a) && (a.BeginPost? || a.EndPost?)
    ensures TracedOk(c, SendEffect(c, m, a))
  {
    assert Alive(c, m);
  }

  lemma SendTraced(c: Cell, now: int, m: nat, a: SendAct)
    requires Safe(c, now) && NoOrphans(c) && Traced(c) && SendEnabled(c, m, a)
    ensures TracedOk(c, SendEffect(c, m, a))
  {
    if a.BeginPost? || a.EndPost? {
      PostTraced(c, now, m, a);
    } else if a.MarkDelivered? {
      MarkTraced(c, now, m, a);
    } else {
      assert Alive(c, m) || Spent(c.msgs[m].loc.pc);
    }
  }

  lemma MarkTraced(c: Cell, now: int, m: nat, a: SendAct)
    requires Safe(c, now) && NoOrphans(c) && Traced(c) && SendEnabled(c, m, a) && a.MarkDelivered?
    ensures TracedOk(c, SendEffect(c, m, a))
  {
    assert Alive(c, m);
  }

  lemma SleepLeaves(c: Cell, now: int, m: nat, jitter: nat)
    requires Safe(c, now) && NoOrphans(c) && Traced(c) && LeaveEnabled(c, m, Wait(Elapsed(jitter)))
    ensures TracedOk(c, LeaveEffect(c, m, Wait(Elapsed(jitter))))
  {
    assert Alive(c, m);
    if RootOf(c, m).reverts == 0 {
      SleepMore(RootOf(c, m).slept, c.msgs[m].retry, jitter);
    }
  }

  lemma RepublishTraced(c: Cell, now: int, m: nat, a: LeaveAct)
    requires Safe(c, now) && NoOrphans(c) && Traced(c) && LeaveEnabled(c, m, a) && a.Republish?
    ensures TracedOk(c, LeaveEffect(c, m, a))
  {
    assert Alive(c, m);
  }

  lemma LeaveTraced(c: Cell, now: int, m: nat, a: LeaveAct)
    requires Safe(c, now) && NoOrphans(c) && Traced(c) && LeaveEnabled(c, m, a) && !a.LoseConnection? && !a.Crash?
    ensures TracedOk(c, LeaveEffect(c, m, a))
  {
    assert Alive(c, m) || Spent(c.msgs[m].loc.pc);
    if a.Wait? && a.w.Elapsed? {
      SleepLeaves(c, now, m, a.w.jitter);
    } else if a.Republish? {
      RepublishTraced(c, now, m, a);
    }
  }

  lemma StepIsTraced(c: Cell, now: int, a: Act)
    requires Safe(c, now) && NoOrphans(c) && Traced(c) && Enabled(c, now, a) && !Crashing(a)
    ensures Traced(Apply(c, now, a))
  {
    match a {
      case Take(m, k) => TakeTraced(c, now, m, k);
      case Send(m, p) => SendTraced(c, now, m, p);
      case Leave(m, l) => LeaveTraced(c, now, m, l);
      case _ => PublisherTraced(c, now, a);
    }
    InstallTraced(c, EffectOf(c, now, a));
  }
}
