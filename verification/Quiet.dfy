/** Runs in which no database call errors and no process dies: every notification is published
    once (twice only if its schedule had already passed when the API looked), has exactly one
    carrier, and is never posted after it was cancelled. */
module Quiet {
  import opened Domain
  import opened Protocol
  import opened Safety
  import opened Coverage
  import opened Lineage

  /** Broker publishes, the limiter and the webhook may still fail, and shutdown may interrupt
      a limiter wait, a post or a backoff. */
  predicate QuietAct(a: Act) {
    match a
    case Api(t) => !t.Abandon? && (t.ReadBack? || t.Enqueue? || t.MarkTask? ==> t.db.Fine?)
    case Relay(_, r) => !r.RCrash? && (r.RRead? || r.RCommit? || r.RDrain? ==> r.db.Fine?)
    case Sched(s) => !s.SCrash? && (s.SRead? || s.SCommit? ==> s.db.Fine?)
    case Take(_, k) => (k.Read? || k.MarkSending? ==> k.db.Fine?) && (k.Build? ==> !k.built.BuildError?)
    case Send(_, p) => p.MarkDelivered? || p.MarkFailed? ==> p.db.Fine?
    case Leave(_, l) => !l.Crash? && !l.LoseConnection? && (l.Release? ==> l.db.Fine?)
    case Cancel(db) => db.Fine?
  }

  // ---- publish bound -----------------------------------------------------------------------

  ghost predicate TaskOnce(c: Cell) {
    && (Unpublished(c.task) ==> c.book.apiPubs == 0)
    && (c.task.ToMark? ==> c.book.apiPubs == 1)
    && (Outboxed(c) ==> c.task.NoTask?)
    && (forall o1, o2 :: o1 in c.entries && o2 in c.entries ==> o1 == o2)
  }

  predicate EntryOnce(e: Entry, row: Row, book: Book) {
    && (e.published ==> e.relay.Idle?)
    && (e.published || e.relay.Draining? ==> !row.status.Pending?)
    && (e.relay.Publishing? ==> book.apiPubs == 0)
    && (e.relay.Committing? ==> book.apiPubs == 1)
    && (!e.relay.Committing? && book.apiPubs == 1 ==> !row.status.Pending?)
  }

  ghost predicate RelayOnce(c: Cell) {
    forall o :: o in c.entries ==> EntryOnce(c.entries[o], c.row, c.book)
  }

  ghost predicate SchedOnce(c: Cell) {
    && (c.sched.SCommitting? ==> c.book.schedPubs == 1)
    && (c.book.schedPubs == 1 ==> !c.row.status.Pending? || c.sched.SCommitting?)
    && c.book.apiPubs <= 1 && c.book.schedPubs <= 1
    && (c.row.scheduledAt.None? ==> c.book.schedPubs == 0)
  }

  /** A scheduled row reaches the broker through the API only if it was due at the API's check. */
  ghost predicate SplitByCheck(c: Cell) {
    && (c.book.dueAtCheck ==> c.row.scheduledAt.Some?)
    && (c.task.ToRead? && !c.book.dueAtCheck && c.row.scheduledAt.Some? ==> !DueBy(c.row, c.task.at))
    && (c.row.scheduledAt.Some? && !c.book.dueAtCheck ==>
          c.book.apiPubs == 0 && !Outboxed(c) && !c.task.ToPublish? && !c.task.ToEnqueue? && !c.task.ToMark?)
  }

  ghost predicate OncePublished(c: Cell) {
    TaskOnce(c) && RelayOnce(c) && SchedOnce(c) && SplitByCheck(c)
  }

  // ---- no loss -----------------------------------------------------------------------------

  predicate Remarking(loc: Loc) {
    Running(loc) && loc.pc.Marking? && loc.pc.tries > 0
  }

  /** The last setter of an unfinished row has not failed to record a delivery. */
  ghost predicate OwnerFresh(c: Cell) {
    forall m :: m in c.msgs && c.book.owner == Some(m) && Remarking(c.msgs[m].loc) ==> Terminal(c.row.status)
  }

  ghost predicate NotLost(c: Cell) {
    !c.book.lost && OwnerFresh(c)
  }

  // ---- cancel safety -----------------------------------------------------------------------

  ghost predicate OneCopy(c: Cell) {
    forall r1, r2 :: r1 in c.roots && r2 in c.roots ==> r1 == r2
  }

  predicate Sends(pc: Pc) {
    PastClaim(pc) && !pc.Announcing?
  }

  /** From its claim until its next transition, a worker holding the only copy keeps the row sending. */
  ghost predicate HoldsRow(c: Cell) {
    OneCopy(c) ==>
      forall m {:trigger Alive(c, m)} ::
        Alive(c, m) && Running(c.msgs[m].loc) && Sends(c.msgs[m].loc.pc) ==> c.row.status.Sending?
  }

  ghost predicate QuietInv(c: Cell) {
    OncePublished(c) && NotLost(c) && HoldsRow(c)
  }

  lemma NewIsQuiet(row: Row)
    requires row.status.Pending?
    ensures QuietInv(NewCell(row))
  {
  }

  // ---- preservation ------------------------------------------------------------------------

  ghost predicate OnceOk(c: Cell, e: Effect) {
    && (Unpublished(e.task) ==> e.book.apiPubs == 0)
    && (e.task.ToMark? ==> e.book.apiPubs == 1)
    && (e.entry.SetEntry? ==>
          && e.task.NoTask?
          && (Outboxed(c) ==> e.entry.id in c.entries)
          && EntryOnce(e.entry.entry, e.row, e.book))
    && (Outboxed(c) ==> e.task.NoTask? && (e.entry.SetEntry? || e.book.apiPubs == c.book.apiPubs))
    && (e.row.status.Pending? ==> c.row.status.Pending?)
    && (e.sched.SCommitting? ==> e.book.schedPubs == 1)
    && (e.book.schedPubs == 1 ==> !e.row.status.Pending? || e.sched.SCommitting?)
    && e.book.apiPubs <= 1 && e.book.schedPubs <= 1
    && e.row.scheduledAt == c.row.scheduledAt
    && (e.row.scheduledAt.None? ==> e.book.schedPubs == 0)
  }

  ghost predicate SplitOk(c: Cell, e: Effect) {
    && e.row.scheduledAt == c.row.scheduledAt
    && (e.book.dueAtCheck ==> c.row.scheduledAt.Some?)
    && (e.task.ToRead? && !e.book.dueAtCheck && c.row.scheduledAt.Some? ==> !DueBy(c.row, e.task.at))
    && (c.row.scheduledAt.Some? && !e.book.dueAtCheck ==>
          && e.book.apiPubs == 0 && e.entry.KeepEntries? && !Outboxed(c)
          && !e.task.ToPublish? && !e.task.ToEnqueue? && !e.task.ToMark?)
  }

  ghost predicate NotLostOk(c: Cell, e: Effect) {
    && !e.book.lost
    && (Terminal(c.row.status) ==> Terminal(e.row.status))
    && (e.change.Move? && e.book.owner == Some(e.change.m) && Remarking(e.change.loc) ==> Terminal(e.row.status))
    && (e.spawn.Child? ==> e.spawn.msg.loc.InQueue?)
    && (e.book.owner != c.book.owner ==>
          e.book.owner.Some? &&
          ((e.change.Move? && e.book.owner.value == e.change.m) || c.row.status.Pending?
           || (!e.spawn.NoSpawn? && e.book.owner.value == c.next)))
  }

  ghost predicate HoldsOk(c: Cell, e: Effect) {
    if e.change.Move? && Alive(c, e.change.m) then
      && (OneCopy(c) && Running(e.change.loc) && Sends(e.change.loc.pc) ==> e.row.status.Sending?)
      && (e.spawn.Child? ==> e.spawn.msg.loc.InQueue?)
    else
      && (c.row.status.Sending? ==> e.row.status.Sending?)
      && (e.change.Move? ==> !Live(e.change.loc))
      && !e.spawn.Child?
  }

  ghost predicate PublishedOk(c: Cell, e: Effect) {
    OnceOk(c, e) && SplitOk(c, e)
  }

  ghost predicate HeldOk(c: Cell, e: Effect) {
    NotLostOk(c, e) && HoldsOk(c, e)
  }

  lemma InstallOnce(c: Cell, e: Effect)
    requires e.change.Keep? || e.change.m in c.msgs
    requires OncePublished(c) && OnceOk(c, e)
    ensures TaskOnce(Install(c, e)) && RelayOnce(Install(c, e)) && SchedOnce(Install(c, e))
  {
    var c' := Install(c, e);
    forall o | o in c'.entries ensures EntryOnce(c'.entries[o], c'.row, c'.book) && c'.task.NoTask? {
      assert o in c.entries ==> Outboxed(c);
      if e.entry.SetEntry? && o != e.entry.id {
        assert o in c.entries;
      }
    }
    forall o1, o2 | o1 in c'.entries && o2 in c'.entries ensures o1 == o2 {
      assert o1 in c.entries || o2 in c.entries ==> Outboxed(c);
    }
  }

  lemma InstallSplit(c: Cell, e: Effect)
    requires e.change.Keep? || e.change.m in c.msgs
    requires SplitByCheck(c) && SplitOk(c, e)
    ensures SplitByCheck(Install(c, e))
  {
    var c' := Install(c, e);
    if Outboxed(c') && e.entry.KeepEntries? {
      var o :| o in c'.entries;
      assert o in c.entries;
    }
  }

  lemma InstallNotLost(c: Cell, e: Effect)
    requires e.change.Keep? || e.change.m in c.msgs
    requires Ids(c) && Positions(c) && NotLost(c) && NotLostOk(c, e)
    ensures NotLost(Install(c, e))
  {
  }

  lemma InstallHolds(c: Cell, e: Effect)
    requires e.change.Keep? || e.change.m in c.msgs
    requires Ids(c) && OneToken(c) && HoldsRow(c) && HoldsOk(c, e)
    requires e.change.Move? ==> c.msgs[e.change.m].root in c.roots
    ensures HoldsRow(Install(c, e))
  {
    var c' := Install(c, e);
    if OneCopy(c') {
      forall r | r in c.roots ensures r in c'.roots {}
      assert OneCopy(c);
      forall m: nat | Alive(c', m) && Running(c'.msgs[m].loc) && Sends(c'.msgs[m].loc.pc)
        ensures c'.row.status.Sending?
      {
        assert m in c.msgs;
        assert (e.change.Move? && m == e.change.m) || Alive(c, m);
      }
    }
  }

  lemma PublisherPublished(c: Cell, now: int, a: Act)
    requires Ids(c) && Locked(c) && OncePublished(c) && Enabled(c, now, a) && QuietAct(a)
    requires !a.Take? && !a.Send? && !a.Leave?
    ensures PublishedOk(c, EffectOf(c, now, a))
  {
  }

  lemma TakePublished(c: Cell, now: int, m: nat, a: TakeAct)
    requires Ids(c) && Locked(c) && OncePublished(c) && TakeEnabled(c, m, a) && QuietAct(Take(m, a))
    ensures PublishedOk(c, TakeEffect(c, m, a))
  {
  }

  lemma SendPublished(c: Cell, now: int, m: nat, a: SendAct)
    requires Ids(c) && Locked(c) && OncePublished(c) && SendEnabled(c, m, a) && QuietAct(Send(m, a))
    ensures PublishedOk(c, SendEffect(c, m, a))
  {
  }

  lemma TakeHeld(c: Cell, now: int, m: nat, a: TakeAct)
    requires Positions(c) && Locked(c) && NoOrphans(c) && OwnerAhead(c)
    requires NotLost(c) && HoldsRow(c) && TakeEnabled(c, m, a) && QuietAct(Take(m, a))
    ensures HeldOk(c, TakeEffect(c, m, a))
  {
    assert Alive(c, m);
  }

  lemma SendHeld(c: Cell, now: int, m: nat, a: SendAct)
    requires Positions(c) && Locked(c) && NoOrphans(c) && OwnerAhead(c)
    requires NotLost(c) && HoldsRow(c) && SendEnabled(c, m, a) && QuietAct(Send(m, a))
    ensures HeldOk(c, SendEffect(c, m, a))
  {
    assert Alive(c, m) || Spent(c.msgs[m].loc.pc);
  }

  lemma LeaveHeld(c: Cell, now: int, m: nat, a: LeaveAct)
    requires Positions(c) && Locked(c) && NoOrphans(c) && OwnerAhead(c)
    requires NotLost(c) && HoldsRow(c) && LeaveEnabled(c, m, a) && QuietAct(Leave(m, a))
    ensures HeldOk(c, LeaveEffect(c, m, a))
  {
    assert Alive(c, m) || Spent(c.msgs[m].loc.pc);
  }

  lemma StepPublished(c: Cell, now: int, a: Act)
    requires Ids(c) && Locked(c) && OncePublished(c) && Enabled(c, now, a) && QuietAct(a)
    ensures PublishedOk(c, EffectOf(c, now, a))
  {
    match a {
      case Take(m, k) => TakePublished(c, now, m, k);
      case Send(m, p) => SendPublished(c, now, m, p);
      case Leave(m, l) =>
      case _ => PublisherPublished(c, now, a);
    }
  }

  lemma StepHeld(c: Cell, now: int, a: Act)
    requires Positions(c) && Locked(c) && NoOrphans(c) && OwnerAhead(c)
    requires NotLost(c) && HoldsRow(c) && Enabled(c, now, a) && QuietAct(a)
    ensures HeldOk(c, EffectOf(c, now, a))
  {
    match a {
      case Take(m, k) => TakeHeld(c, now, m, k);
      case Send(m, p) => SendHeld(c, now, m, p);
      case Leave(m, l) => LeaveHeld(c, now, m, l);
      case _ =>
    }
  }

  lemma StepIsQuiet(c: Cell, now: int, a: Act)
    requires Safe(c, now) && Covered(c) && Traced(c) && QuietInv(c)
    requires Enabled(c, now, a) && QuietAct(a)
    ensures QuietInv(Apply(c, now, a))
  {
    StepPublished(c, now, a);
    StepHeld(c, now, a);
    var e := EffectOf(c, now, a);
    assert e.change.Move? ==> c.msgs[e.change.m].root in c.roots;
    InstallOnce(c, e);
    InstallSplit(c, e);
    InstallNotLost(c, e);
    InstallHolds(c, e);
  }

  // ---- what a quiet cell looks like ----------------------------------------------------------

  /** Initial publishes: at most one, or two when the schedule had passed at the API's check. */
  lemma PublishBound(c: Cell, now: int)
    requires Safe(c, now) && OncePublished(c)
    ensures |c.roots.Keys| <= if c.book.dueAtCheck then 2 else 1
  {
  }

  lemma FewRoots(c: Cell)
    requires |c.roots.Keys| <= 1
    ensures OneCopy(c)
  {
    forall r1, r2 | r1 in c.roots && r2 in c.roots ensures r1 == r2 {
      if r1 != r2 {
        assert {r1, r2} <= c.roots.Keys;
        SubsetSize({r1, r2}, c.roots.Keys);
      }
    }
  }

  /** A row not yet due at the API's check has exactly one carrier while it is unfinished. */
  lemma OneCarrier(c: Cell, now: int, k1: Carrier, k2: Carrier)
    requires Safe(c, now) && Traced(c) && OncePublished(c) && !c.book.dueAtCheck
    requires Carries(c, k1) && Carries(c, k2)
    ensures k1 == k2
  {
    FewRoots(c);
    assert k1.ByOutbox? || k2.ByOutbox? ==> Outboxed(c);
  }
}
