/** What holds in every run, whatever fails: the status machine, no early send, bounded retry
    counts, one delivered event, and the row lock of the scheduler. */
module Safety {
  import opened Domain
  import opened Protocol

  /** Positions reached only after this handler's own MarkSending took effect. */
  predicate PastClaim(pc: Pc) {
    pc.Sendable? || pc.Posting? || pc.Marking? || pc.Announcing? || pc.Waiting? || pc.Republishing? || pc.Releasing?
    || pc == Failing(true)
  }

  ghost predicate MsgIds(c: Cell) {
    forall m :: m in c.msgs ==> m < c.next && c.msgs[m].root in c.roots && c.msgs[m].retry <= MAX_WEBHOOK_RETRIES
  }

  ghost predicate Ids(c: Cell) {
    && MsgIds(c)
    && (forall r :: r in c.roots ==> r < c.next)
    && |c.roots.Keys| == c.book.apiPubs + c.book.schedPubs
    && (c.task.ToMark? ==> c.task.copy in c.roots)
    && (c.sched.SCommitting? ==> c.sched.copy in c.roots)
    && (forall o :: o in c.entries && c.entries[o].relay.Committing? ==> c.entries[o].relay.copy in c.roots)
  }

  ghost predicate Published(c: Cell) {
    exists r :: r in c.roots
  }

  /** Something outside the row itself refers to it: it was or is about to be published. */
  ghost predicate Exposed(c: Cell) {
    || c.task.ToPublish? || c.task.ToEnqueue? || c.task.ToMark?
    || (exists o :: o in c.entries) || !c.sched.Unlocked? || Published(c)
    || c.book.dueAtCheck
  }

  ghost predicate Due(c: Cell, now: int) {
    && (Exposed(c) ==> DueBy(c.row, now))
    && (c.task.ToRead? ==>
          c.task.at <= now && (c.row.scheduledAt.Some? && c.book.dueAtCheck ==> DueBy(c.row, c.task.at)))
    && (c.task.ToClock? ==> !c.book.dueAtCheck)
  }

  /** While a scheduler transaction is open its row stays pending and scheduled. */
  ghost predicate Locked(c: Cell) {
    !c.sched.Unlocked? ==> c.row.status.Pending? && c.row.scheduledAt.Some?
  }

  ghost predicate Positions(c: Cell) {
    forall m :: m in c.msgs && Running(c.msgs[m].loc) ==>
      var pc := c.msgs[m].loc.pc;
      && (PastClaim(pc) ==> !c.row.status.Pending?)
      && (pc.Announcing? ==> c.row.status.Delivered? && c.book.marks == 1 && c.book.events == 0)
      && (pc.Waiting? || pc.Republishing? || pc.Releasing? ==> c.msgs[m].retry < MAX_WEBHOOK_RETRIES)
  }

  predicate IsAnnouncing(loc: Loc) {
    Running(loc) && loc.pc.Announcing?
  }

  ghost predicate OneAnnouncer(c: Cell) {
    forall m1, m2 ::
      m1 in c.msgs && m2 in c.msgs && IsAnnouncing(c.msgs[m1].loc) && IsAnnouncing(c.msgs[m2].loc) ==> m1 == m2
  }

  ghost predicate Outcome(c: Cell) {
    && c.book.marks <= 1
    && c.book.events <= c.book.marks
    && (c.book.marks == 1 ==> c.row.status.Delivered?)
    && (c.row.provider.Some? ==> c.row.status.Delivered?)
    && (!Published(c) ==> c.row.status.Pending? || c.row.status.Cancelled?)
  }

  ghost predicate Safe(c: Cell, now: int) {
    Ids(c) && Due(c, now) && Locked(c) && Positions(c) && OneAnnouncer(c) && Outcome(c)
  }

  lemma NewIsSafe(row: Row, now: int)
    requires row.status.Pending? && row.provider.None?
    ensures Safe(NewCell(row), now)
  {
  }

  // ---- preservation: what a step may change, then that every step stays within it ---------

  /** The row keeps its schedule, never returns to pending, and finished rows stay as they are. */
  predicate RowMoves(row: Row, row': Row) {
    && row' == row.(status := row'.status, provider := row'.provider)
    && (row'.status.Pending? ==> row' == row)
    && (Terminal(row.status) ==> row' == row)
    && (row'.provider != row.provider ==> row'.status.Delivered?)
  }

  predicate RefsOk(c: Cell, e: Effect)
    requires e.change.Keep? || e.change.m in c.msgs
  {
    && (e.change.Move? ==> c.msgs[e.change.m].root in c.roots)
    && e.book.apiPubs + e.book.schedPubs == c.book.apiPubs + c.book.schedPubs + (if e.spawn.Fresh? then 1 else 0)
    && (e.spawn.Child? ==> e.spawn.msg.root in c.roots && e.spawn.msg.retry <= MAX_WEBHOOK_RETRIES)
    && (e.task.ToMark? ==> e.task == c.task || e.task.copy in c.roots || (e.spawn.Fresh? && e.task.copy == c.next))
    && (e.sched.SCommitting? ==> e.sched == c.sched || (e.spawn.Fresh? && e.sched.copy == c.next))
    && (e.entry.SetEntry? && e.entry.entry.relay.Committing? ==> e.spawn.Fresh? && e.entry.entry.relay.copy == c.next)
  }

  predicate PcOk(loc: Loc, retry: nat, row: Row, book: Book) {
    Running(loc) ==>
      && (PastClaim(loc.pc) ==> !row.status.Pending?)
      && (loc.pc.Announcing? ==> row.status.Delivered? && book.marks == 1 && book.events == 0)
      && (loc.pc.Waiting? || loc.pc.Republishing? || loc.pc.Releasing? ==> retry < MAX_WEBHOOK_RETRIES)
  }

  predicate PcsOk(c: Cell, e: Effect)
    requires e.change.Keep? || e.change.m in c.msgs
  {
    && (e.change.Move? ==> PcOk(e.change.loc, c.msgs[e.change.m].retry, e.row, e.book))
    && (e.spawn.Child? ==> PcOk(e.spawn.msg.loc, e.spawn.msg.retry, e.row, e.book))
    && e.book.marks >= c.book.marks
    && (e.book.events != c.book.events ==> e.change.Move? && IsAnnouncing(c.msgs[e.change.m].loc))
    && (c.book.marks == 1 ==> e.book.marks == 1)
  }

  predicate AnnouncersOk(c: Cell, e: Effect)
    requires e.change.Keep? || e.change.m in c.msgs
  {
    && (e.change.Move? && IsAnnouncing(e.change.loc) ==> c.book.marks == 0 && e.spawn.NoSpawn?)
    && (e.spawn.Child? && IsAnnouncing(e.spawn.msg.loc) ==>
          e.change.Move? && IsAnnouncing(c.msgs[e.change.m].loc) && !IsAnnouncing(e.change.loc))
  }

  predicate Exposes(e: Effect) {
    || e.task.ToPublish? || e.task.ToEnqueue? || e.task.ToMark? || e.entry.SetEntry? || !e.sched.Unlocked?
    || !e.spawn.NoSpawn? || e.change.Move? || e.book.dueAtCheck
  }

  ghost predicate DueOk(c: Cell, e: Effect, now: int) {
    && e.row.scheduledAt == c.row.scheduledAt
    && (e.task.ToRead? ==>
          e.task.at <= now && (c.row.scheduledAt.Some? && e.book.dueAtCheck ==> DueBy(c.row, e.task.at)))
    && (e.task.ToClock? ==> !e.book.dueAtCheck)
    && (Exposes(e) ==> DueBy(c.row, now))
  }

  predicate LockedOk(c: Cell, e: Effect) {
    && e.row.scheduledAt == c.row.scheduledAt
    && (!e.sched.Unlocked? ==> e.row.status.Pending? && c.row.scheduledAt.Some?)
  }

  ghost predicate OutcomeOk(c: Cell, e: Effect) {
    && e.book.marks <= 1 && e.book.events <= e.book.marks
    && (e.book.marks == 1 ==> e.row.status.Delivered?)
    && (e.row.provider.Some? ==> e.row.status.Delivered?)
    && (!Published(c) && e.spawn.NoSpawn? ==> e.row.status.Pending? || e.row.status.Cancelled?)
  }

  ghost predicate SafeOk(c: Cell, e: Effect, now: int)
    requires e.change.Keep? || e.change.m in c.msgs
  {
    && RefsOk(c, e) && RowMoves(c.row, e.row) && PcsOk(c, e) && AnnouncersOk(c, e)
    && DueOk(c, e, now) && LockedOk(c, e) && OutcomeOk(c, e)
  }

  lemma TaskSafe(c: Cell, now: int, a: TaskAct)
    requires Safe(c, now) && TaskEnabled(c, a)
    ensures SafeOk(c, TaskEffect(c, now, a), now)
  {
  }

  lemma RelaySafe(c: Cell, now: int, o: nat, a: RelayAct)
    requires Safe(c, now) && RelayEnabled(c, o, a)
    ensures SafeOk(c, RelayEffect(c, o, a), now)
  {
  }

  lemma SchedSafe(c: Cell, now: int, a: SchedAct)
    requires Safe(c, now) && SchedEnabled(c, now, a)
    ensures SafeOk(c, SchedEffect(c, now, a), now)
  {
  }

  lemma TakeSafe(c: Cell, now: int, m: nat, a: TakeAct)
    requires Safe(c, now) && TakeEnabled(c, m, a)
    ensures SafeOk(c, TakeEffect(c, m, a), now)
  {
    if a.MarkSending? {
      ClaimSafe(c, now, m, a);
    } else if a.Read? {
      ReadSafe(c, now, m, a);
    }
  }

  lemma ReadSafe(c: Cell, now: int, m: nat, a: TakeAct)
    requires Safe(c, now) && TakeEnabled(c, m, a) && a.Read?
    ensures SafeOk(c, TakeEffect(c, m, a), now)
  {
  }

  lemma ClaimSafe(c: Cell, now: int, m: nat, a: TakeAct)
    requires Safe(c, now) && TakeEnabled(c, m, a) && a.MarkSending?
    ensures SafeOk(c, TakeEffect(c, m, a), now)
  {
  }

  lemma SendSafe(c: Cell, now: int, m: nat, a: SendAct)
    requires Safe(c, now) && SendEnabled(c, m, a)
    ensures SafeOk(c, SendEffect(c, m, a), now)
  {
    if a.MarkDelivered? {
      MarkSafe(c, now, m, a);
    }
  }

  lemma MarkSafe(c: Cell, now: int, m: nat, a: SendAct)
    requires Safe(c, now) && SendEnabled(c, m, a) && a.MarkDelivered?
    ensures SafeOk(c, SendEffect(c, m, a), now)
  {
  }

  lemma LeaveSafe(c: Cell, now: int, m: nat, a: LeaveAct)
    requires Safe(c, now) && LeaveEnabled(c, m, a)
    ensures SafeOk(c, LeaveEffect(c, m, a), now)
  {
    if a.Settle? || a.Crash? || a.LoseConnection? {
      EndSafe(c, now, m, a);
    }
  }

  lemma EndSafe(c: Cell, now: int, m: nat, a: LeaveAct)
    requires Safe(c, now) && LeaveEnabled(c, m, a) && (a.Settle? || a.Crash? || a.LoseConnection?)
    ensures SafeOk(c, LeaveEffect(c, m, a), now)
  {
  }

  lemma InstallMsgIds(c: Cell, e: Effect)
    requires e.change.Keep? || e.change.m in c.msgs
    requires MsgIds(c) && (e.spawn.Child? ==> e.spawn.msg.root in c.roots && e.spawn.msg.retry <= MAX_WEBHOOK_RETRIES)
    ensures MsgIds(Install(c, e))
  {
    var c' := Install(c, e);
    forall m | m in c'.msgs
      ensures m < c'.next && c'.msgs[m].root in c'.roots && c'.msgs[m].retry <= MAX_WEBHOOK_RETRIES
    {
      assert m in c.msgs || m == c.next;
    }
  }

  lemma InstallIds(c: Cell, e: Effect)
    requires e.change.Keep? || e.change.m in c.msgs
    requires Ids(c) && RefsOk(c, e)
    ensures Ids(Install(c, e))
  {
    InstallMsgIds(c, e);
  }

  lemma InstallPositions(c: Cell, e: Effect)
    requires e.change.Keep? || e.change.m in c.msgs
    requires Ids(c) && Positions(c) && OneAnnouncer(c) && RowMoves(c.row, e.row) && PcsOk(c, e)
    ensures Positions(Install(c, e))
  {
  }

  lemma InstallAnnouncer(c: Cell, e: Effect)
    requires e.change.Keep? || e.change.m in c.msgs
    requires Ids(c) && Positions(c) && OneAnnouncer(c) && AnnouncersOk(c, e)
    ensures OneAnnouncer(Install(c, e))
  {
  }

  lemma StaysPublished(c: Cell, e: Effect)
    requires e.change.Keep? || e.change.m in c.msgs
    requires Published(c) || e.spawn.Fresh?
    ensures Published(Install(c, e))
  {
    if e.spawn.Fresh? {
      assert c.next in Install(c, e).roots;
    } else {
      var r :| r in c.roots;
      assert r in Install(c, e).roots;
    }
  }

  lemma InstallSafe(c: Cell, e: Effect, now: int)
    requires e.change.Keep? || e.change.m in c.msgs
    requires Safe(c, now) && SafeOk(c, e, now)
    ensures Safe(Install(c, e), now)
  {
    InstallIds(c, e);
    InstallPositions(c, e);
    InstallAnnouncer(c, e);
    if Published(c) || e.spawn.Fresh? {
      StaysPublished(c, e);
    }
  }

  lemma StepIsSafe(c: Cell, now: int, a: Act)
    requires Safe(c, now) && Enabled(c, now, a)
    ensures Safe(Apply(c, now, a), now) && RowMoves(c.row, Apply(c, now, a).row)
  {
    match a {
      case Api(t) => TaskSafe(c, now, t);
      case Relay(o, r) => RelaySafe(c, now, o, r);
      case Sched(s) => SchedSafe(c, now, s);
      case Take(m, k) => TakeSafe(c, now, m, k);
      case Send(m, p) => SendSafe(c, now, m, p);
      case Leave(m, l) => LeaveSafe(c, now, m, l);
      case Cancel(db) =>
    }
    InstallSafe(c, EffectOf(c, now, a), now);
  }
}
