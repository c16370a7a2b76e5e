/** An unfinished row that does not count as lost is always carried by something that will move it
    on, and the steps at which a row loses its last carrier are known.  Database faults and crashes
    of every process are allowed; a handler that outlives its broker connection is not. */
module Coverage {
  import opened Domain
  import opened Protocol
  import opened Safety

  datatype Carrier = ByTask | ByOutbox(o: nat) | BySchedule | ByMessage(m: nat)

  /** API post-commit work that has not published yet and is going to. */
  predicate TaskCarries(c: Cell) {
    && (c.task.ToClock? || c.task.ToRead? || c.task.ToPublish? || c.task.ToEnqueue?)
    && (c.row.scheduledAt.None? || c.book.dueAtCheck)
  }

  predicate OutboxCarries(c: Cell, o: nat) {
    c.row.status.Pending? && o in c.entries && !c.entries[o].published && !c.entries[o].relay.Committing?
  }

  predicate ScheduleCarries(c: Cell) {
    c.row.status.Pending? && c.row.scheduledAt.Some? && !c.sched.SCommitting?
  }

  ghost predicate Carries(c: Cell, k: Carrier) {
    match k
    case ByTask => TaskCarries(c)
    case ByOutbox(o) => OutboxCarries(c, o)
    case BySchedule => ScheduleCarries(c)
    case ByMessage(m) => Alive(c, m)
  }

  predicate InFlight(st: Status) {
    st.Queued? || st.Sending?
  }

  ghost predicate NoOrphans(c: Cell) {
    forall m :: m in c.msgs ==> !c.msgs[m].loc.Orphan?
  }

  /** A queued or sending row has a live message: that of its last setter. */
  ghost predicate Owned(c: Cell) {
    InFlight(c.row.status) && !c.book.lost ==>
      c.book.owner.Some? && Alive(c, c.book.owner.value)
  }

  /** Every copy published for a row that is still pending is alive. */
  ghost predicate CopiesLive(c: Cell) {
    c.row.status.Pending? && !c.book.lost ==> forall r {:trigger Alive(c, r)} :: r in c.roots ==> Alive(c, r)
  }

  ghost predicate Outboxed(c: Cell) {
    exists o :: o in c.entries
  }

  ghost predicate HandedOver(c: Cell) {
    c.row.status.Pending? && !c.book.lost && c.row.scheduledAt.None? ==> TaskCarries(c) || Published(c) || Outboxed(c)
  }

  /** The relay discards an entry only once its row has left pending for good. */
  ghost predicate Drained(c: Cell) {
    forall o :: o in c.entries && (c.entries[o].published || c.entries[o].relay.Draining?) ==> !c.row.status.Pending?
  }

  /** After its own claim, the last setter's row is not back in the queue. */
  ghost predicate OwnerAhead(c: Cell) {
    forall m :: m in c.msgs && c.book.owner == Some(m) && Running(c.msgs[m].loc) && PastClaim(c.msgs[m].loc.pc) ==>
      !c.row.status.Queued?
  }

  ghost predicate Covered(c: Cell) {
    NoOrphans(c) && Owned(c) && CopiesLive(c) && HandedOver(c) && Drained(c) && OwnerAhead(c)
  }

  /** Coverage: an unfinished row that was not dropped has a carrier. */
  lemma CoveredHasCarrier(c: Cell, now: int) returns (k: Carrier)
    requires Safe(c, now) && Covered(c) && !c.book.lost && !Terminal(c.row.status)
    ensures Carries(c, k)
  {
    if InFlight(c.row.status) {
      k := ByMessage(c.book.owner.value);
    } else if c.row.scheduledAt.Some? {
      k := if c.sched.SCommitting? then ByMessage(c.sched.copy) else BySchedule;
    } else if Published(c) {
      var r :| r in c.roots;
      k := ByMessage(r);
    } else if TaskCarries(c) {
      k := ByTask;
    } else {
      var o :| o in c.entries;
      k := ByOutbox(o);
    }
  }

  // ---- preservation ------------------------------------------------------------------------

  /** x is a live message after the step. */
  ghost predicate LiveAfter(c: Cell, e: Effect, x: nat) {
    if !e.spawn.NoSpawn? && x == c.next then e.spawn.Fresh? || e.spawn.msg.loc.InQueue?
    else if e.change.Keep? || e.change.m != x then Alive(c, x)
    else e.change.Move? && Live(e.change.loc)
  }

  ghost predicate OwnedOk(c: Cell, e: Effect) {
    InFlight(e.row.status) && !e.book.lost ==> e.book.owner.Some? && LiveAfter(c, e, e.book.owner.value)
  }

  ghost predicate CopiesOk(c: Cell, e: Effect) {
    e.row.status.Pending? && !e.book.lost ==>
      && !e.spawn.Child?
      && c.row.status.Pending? && !c.book.lost
      && (!e.change.Keep? && Alive(c, e.change.m) ==> LiveAfter(c, e, e.change.m))
  }

  ghost predicate HandedOk(c: Cell, e: Effect) {
    e.row.status.Pending? && !e.book.lost && e.row.scheduledAt.None? ==>
      || (!e.task.NoTask? && !e.task.ToMark?)
      || Published(c) || e.spawn.Fresh?
      || Outboxed(c) || e.entry.SetEntry?
  }

  predicate DrainedOk(c: Cell, e: Effect) {
    && (e.row.status.Pending? ==> c.row.status.Pending?)
    && (e.entry.SetEntry? && (e.entry.entry.published || e.entry.entry.relay.Draining?) ==> !e.row.status.Pending?)
  }

  predicate AheadOk(c: Cell, e: Effect) {
    && (e.row.status.Queued? && e.book.owner.Some? ==>
          if e.change.Move? && e.change.m == e.book.owner.value
          then Running(e.change.loc) ==> !PastClaim(e.change.loc.pc)
          else (c.row.status.Queued? && e.book.owner == c.book.owner) || c.row.status.Pending? ||
               (e.spawn.Child? && e.book.owner == Some(c.next)))
    && (e.spawn.Child? ==> e.spawn.msg.loc.InQueue? && (e.book.owner == c.book.owner || e.book.owner == Some(c.next)))
    && (e.change.Move? ==> !e.change.loc.Orphan?)
  }

  ghost predicate CarriedOk(c: Cell, e: Effect) {
    OwnedOk(c, e) && CopiesOk(c, e)
  }

  ghost predicate OrderlyOk(c: Cell, e: Effect) {
    HandedOk(c, e) && DrainedOk(c, e) && AheadOk(c, e)
  }

  lemma InstallOwned(c: Cell, e: Effect)
    requires e.change.Keep? || e.change.m in c.msgs
    requires Ids(c) && OwnedOk(c, e)
    ensures Owned(Install(c, e))
  {
  }

  lemma InstallCopies(c: Cell, e: Effect)
    requires e.change.Keep? || e.change.m in c.msgs
    requires Ids(c) && CopiesLive(c) && CopiesOk(c, e)
    ensures CopiesLive(Install(c, e))
  {
    var c' := Install(c, e);
    if c'.row.status.Pending? && !c'.book.lost {
      forall r | r in c'.roots ensures Alive(c', r) {
        if r in c.roots {
          assert Alive(c, r);
        }
      }
    }
  }

  lemma InstallAhead(c: Cell, e: Effect)
    requires e.change.Keep? || e.change.m in c.msgs
    requires Ids(c) && Positions(c) && NoOrphans(c) && OwnerAhead(c) && AheadOk(c, e)
    ensures NoOrphans(Install(c, e)) && OwnerAhead(Install(c, e))
  {
  }

  lemma InstallHanded(c: Cell, e: Effect)
    requires e.change.Keep? || e.change.m in c.msgs
    requires HandedOk(c, e) && Drained(c) && DrainedOk(c, e)
    ensures HandedOver(Install(c, e)) && Drained(Install(c, e))
  {
    var c' := Install(c, e);
    if Published(c) || e.spawn.Fresh? {
      StaysPublished(c, e);
    } else if e.entry.SetEntry? {
      assert e.entry.id in c'.entries;
    } else if Outboxed(c) {
      var o :| o in c.entries;
      assert o in c'.entries;
    }
  }

  predicate Zombie(a: Act) {
    a.Leave? && a.l.LoseConnection?
  }

  lemma PublisherCarried(c: Cell, now: int, a: Act)
    requires Ids(c) && Positions(c) && Locked(c) && NoOrphans(c) && Owned(c) && CopiesLive(c)
    requires Enabled(c, now, a) && !a.Take? && !a.Send? && !a.Leave?
    ensures CarriedOk(c, EffectOf(c, now, a))
  {
    if c.row.status.Pending? && !c.book.lost {
      assert c.task.ToMark? ==> Alive(c, c.task.copy);
      assert c.sched.SCommitting? ==> Alive(c, c.sched.copy);
      assert a.Relay? && c.entries[a.o].relay.Committing? ==> Alive(c, c.entries[a.o].relay.copy);
    }
  }

  lemma TakeOwned(c: Cell, now: int, m: nat, a: TakeAct)
    requires Ids(c) && NoOrphans(c) && Owned(c) && TakeEnabled(c, m, a)
    ensures OwnedOk(c, TakeEffect(c, m, a))
  {
  }

  lemma TakeCarried(c: Cell, now: int, m: nat, a: TakeAct)
    requires Ids(c) && NoOrphans(c) && Owned(c) && TakeEnabled(c, m, a)
    ensures CarriedOk(c, TakeEffect(c, m, a))
  {
    TakeOwned(c, now, m, a);
  }

  lemma SendCarried(c: Cell, now: int, m: nat, a: SendAct)
    requires Ids(c) && Positions(c) && Locked(c) && NoOrphans(c) && Owned(c) && CopiesLive(c) && SendEnabled(c, m, a)
    ensures CarriedOk(c, SendEffect(c, m, a))
  {
  }

  lemma LeaveCarried(c: Cell, now: int, m: nat, a: LeaveAct)
    requires Ids(c) && Positions(c) && Locked(c) && NoOrphans(c)
    requires Owned(c) && CopiesLive(c) && LeaveEnabled(c, m, a) && !a.LoseConnection?
    ensures CarriedOk(c, LeaveEffect(c, m, a))
  {
  }

  lemma PublisherOrderly(c: Cell, now: int, a: Act)
    requires Positions(c) && Locked(c) && NoOrphans(c) && HandedOver(c) && Drained(c) && OwnerAhead(c)
    requires Enabled(c, now, a) && !a.Take? && !a.Send? && !a.Leave?
    ensures OrderlyOk(c, EffectOf(c, now, a))
  {
  }

  lemma TakeOrderly(c: Cell, now: int, m: nat, a: TakeAct)
    requires Positions(c) && Locked(c) && NoOrphans(c) && HandedOver(c) && Drained(c) && OwnerAhead(c)
    requires TakeEnabled(c, m, a)
    ensures OrderlyOk(c, TakeEffect(c, m, a))
  {
  }

  lemma SendOrderly(c: Cell, now: int, m: nat, a: SendAct)
    requires Positions(c) && Locked(c) && NoOrphans(c) && HandedOver(c) && Drained(c) && OwnerAhead(c)
    requires SendEnabled(c, m, a)
    ensures OrderlyOk(c, SendEffect(c, m, a))
  {
  }

  lemma LeaveOrderly(c: Cell, now: int, m: nat, a: LeaveAct)
    requires Positions(c) && Locked(c) && NoOrphans(c) && HandedOver(c)
    requires Drained(c) && OwnerAhead(c) && LeaveEnabled(c, m, a) && !a.LoseConnection?
    ensures OrderlyOk(c, LeaveEffect(c, m, a))
  {
  }

  lemma StepIsCovered(c: Cell, now: int, a: Act)
    requires Safe(c, now) && Covered(c) && Enabled(c, now, a) && !Zombie(a)
    ensures Covered(Apply(c, now, a))
  {
    match a {
      case Take(m, k) => TakeCarried(c, now, m, k);
      case Send(m, p) => SendCarried(c, now, m, p);
      case Leave(m, l) => LeaveCarried(c, now, m, l);
      case _ => PublisherCarried(c, now, a);
    }
    match a {
      case Take(m, k) => TakeOrderly(c, now, m, k);
      case Send(m, p) => SendOrderly(c, now, m, p);
      case Leave(m, l) => LeaveOrderly(c, now, m, l);
      case _ => PublisherOrderly(c, now, a);
    }
    var e := EffectOf(c, now, a);
    InstallOwned(c, e);
    InstallCopies(c, e);
    InstallAhead(c, e);
    InstallHanded(c, e);
  }

  /** A call fails, or a process dies, where that gives up something the process was responsible
      for.  The API abandons a row when it dies, or when the commit that inserted the row took effect
      but was reported as failed. */
  predicate DropPoint(c: Cell, a: Act) {
    match a
    case Api(t) =>
      t.Abandon? || (t.ReadBack? && !t.db.Fine?) || (t.Enqueue? && t.db == Fault(false))
    case Take(_, k) =>
      (k.Read? && !k.db.Fine?) || (k.Build? && k.built.BuildError?) || (k.MarkSending? && !k.db.Fine?)
    case Send(m, p) =>
      || (p.MarkFailed? && p.db == Fault(false))
      || (p.MarkDelivered? && p.db == Fault(false) && LastTry(c, m))
      || p.GiveUp?
    case _ => false
  }

  predicate LastTry(c: Cell, m: nat) {
    Handling(c, m) && c.msgs[m].loc.pc.Marking? && c.msgs[m].loc.pc.tries + 1 >= MARK_DELIVERED_ATTEMPTS
  }

  lemma OthersLoss(c: Cell, now: int, a: Act)
    requires Enabled(c, now, a) && !a.Send? && !c.book.lost && EffectOf(c, now, a).book.lost
    ensures DropPoint(c, a)
  {
  }

  /** A row comes to be counted as lost only at a drop point. */
  lemma LossNeedsDropPoint(c: Cell, now: int, a: Act)
    requires Positions(c) && OwnerAhead(c) && Enabled(c, now, a)
    requires !c.book.lost && Apply(c, now, a).book.lost
    ensures DropPoint(c, a)
  {
    if !a.Send? {
      OthersLoss(c, now, a);
    }
  }

  // ---- where a row is stranded ---------------------------------------------------------------

  /** The row is unfinished and nothing is left that would move it on. */
  ghost predicate Stranded(c: Cell) {
    !Terminal(c.row.status) && forall k :: !Carries(c, k)
  }

  predicate TakesEffect(u: Update, row: Row, db: Db) {
    Guard(u, row.status) && (db.Fine? || db.applied)
  }

  /** MarkQueued takes effect on behalf of a copy that the broker no longer holds. */
  predicate QueuesForDead(c: Cell, a: Act) {
    match a
    case Api(t) =>
      t.MarkTask? && c.task.ToMark? && TakesEffect(ToQueued, c.row, t.db) && !Alive(c, c.task.copy)
    case Relay(o, r) =>
      && r.RCommit? && o in c.entries && c.entries[o].relay.Committing?
      && TakesEffect(ToQueued, c.row, r.db) && !Alive(c, c.entries[o].relay.copy)
    case Sched(s) =>
      s.SCommit? && c.sched.SCommitting? && TakesEffect(ToQueued, c.row, s.db) && !Alive(c, c.sched.copy)
    case _ => false
  }

  /** The outbox entry is written when the row has left pending, so no relay will publish it. */
  predicate EntersLate(c: Cell, a: Act) {
    a.Api? && a.t.Enqueue? && !c.row.status.Pending?
  }

  /** The last attempt to record a delivery finds that another worker released the row. */
  predicate MissesLast(c: Cell, a: Act) {
    a.Send? && a.p.MarkDelivered? && LastTry(c, a.m) && !Guard(ToDelivered(None), c.row.status)
  }

  /** A worker or the API gives the row up, for an error or by dying. */
  predicate GivesUp(c: Cell, a: Act) {
    DropPoint(c, a) || MissesLast(c, a)
  }

  predicate MayStrand(c: Cell, a: Act) {
    GivesUp(c, a) || QueuesForDead(c, a) || EntersLate(c, a)
  }

  /** What carries the row after the step, if k did before. */
  function TaskKeeps(c: Cell, t: TaskAct, k: Carrier): Carrier {
    if t == TryPublish(true) then ByMessage(c.next)
    else if t.Enqueue? && k.ByTask? then ByOutbox(t.id)
    else if t.MarkTask? && c.task.ToMark? && TakesEffect(ToQueued, c.row, t.db) then ByMessage(c.task.copy)
    else k
  }

  function RelayKeeps(c: Cell, o: nat, r: RelayAct, k: Carrier): Carrier {
    if r == RPublish(true) then ByMessage(c.next)
    else if r.RCommit? && o in c.entries && c.entries[o].relay.Committing? && TakesEffect(ToQueued, c.row, r.db)
    then ByMessage(c.entries[o].relay.copy)
    else k
  }

  function SchedKeeps(c: Cell, s: SchedAct, k: Carrier): Carrier {
    if s == SPublish(true) then ByMessage(c.next)
    else if s.SCommit? && c.sched.SCommitting? && TakesEffect(ToQueued, c.row, s.db) then ByMessage(c.sched.copy)
    else k
  }

  function LeaveKeeps(c: Cell, m: nat, l: LeaveAct, k: Carrier): Carrier {
    if l == Republish(true) && k == ByMessage(m) then ByMessage(c.next) else k
  }

  lemma TaskKept(c: Cell, now: int, t: TaskAct, k: Carrier)
    requires Safe(c, now) && TaskEnabled(c, t) && Carries(c, k) && !MayStrand(c, Api(t))
    ensures
      var c' := Install(c, TaskEffect(c, now, t));
      Terminal(c'.row.status) || Carries(c', TaskKeeps(c, t, k))
  {
  }

  lemma RelayKept(c: Cell, now: int, o: nat, r: RelayAct, k: Carrier)
    requires Ids(c) && Drained(c) && RelayEnabled(c, o, r) && Carries(c, k) && !MayStrand(c, Relay(o, r))
    ensures
      var c' := Install(c, RelayEffect(c, o, r));
      Terminal(c'.row.status) || Carries(c', RelayKeeps(c, o, r, k))
  {
  }

  lemma SchedKept(c: Cell, now: int, s: SchedAct, k: Carrier)
    requires Ids(c) && Locked(c) && SchedEnabled(c, now, s) && Carries(c, k) && !MayStrand(c, Sched(s))
    ensures
      var c' := Install(c, SchedEffect(c, now, s));
      Terminal(c'.row.status) || Carries(c', SchedKeeps(c, s, k))
  {
  }

  lemma TakeKept(c: Cell, m: nat, t: TakeAct, k: Carrier)
    requires NoOrphans(c) && TakeEnabled(c, m, t) && Carries(c, k) && !MayStrand(c, Take(m, t))
    ensures
      var c' := Install(c, TakeEffect(c, m, t));
      Terminal(c'.row.status) || Carries(c', if t.MarkSending? then ByMessage(m) else k)
  {
  }

  lemma SendKept(c: Cell, now: int, m: nat, p: SendAct, k: Carrier)
    requires Positions(c) && NoOrphans(c) && SendEnabled(c, m, p) && Carries(c, k) && !MayStrand(c, Send(m, p))
    ensures
      var c' := Install(c, SendEffect(c, m, p));
      Terminal(c'.row.status) || Carries(c', k)
  {
  }

  lemma LeaveKept(c: Cell, now: int, m: nat, l: LeaveAct, k: Carrier)
    requires Ids(c) && NoOrphans(c) && LeaveEnabled(c, m, l) && !l.LoseConnection?
    requires Carries(c, k) && !MayStrand(c, Leave(m, l))
    ensures
      var c' := Install(c, LeaveEffect(c, m, l));
      Terminal(c'.row.status) || Carries(c', LeaveKeeps(c, m, l, k))
  {
  }

  /** Whatever takes the last carrier of an unfinished row is one of the listed steps. */
  lemma StrandingStep(c: Cell, now: int, a: Act)
    requires Safe(c, now) && Covered(c) && Enabled(c, now, a) && !Zombie(a)
    requires !Stranded(c) && Stranded(Apply(c, now, a))
    ensures MayStrand(c, a)
  {
    if Terminal(c.row.status) {
      StepIsSafe(c, now, a);
    } else if !MayStrand(c, a) {
      var k :| Carries(c, k);
      match a
      case Api(t) => TaskKept(c, now, t, k);
      case Relay(o, r) => RelayKept(c, now, o, r, k);
      case Sched(s) => SchedKept(c, now, s, k);
      case Take(m, t) => TakeKept(c, m, t, k);
      case Send(m, p) => SendKept(c, now, m, p, k);
      case Leave(m, l) => LeaveKept(c, now, m, l, k);
      case Cancel(_) =>
    }
  }

  // ---- rows without a schedule ---------------------------------------------------------------

  predicate Unpublished(t: Task) {
    t.ToClock? || t.ToRead? || t.ToPublish? || t.ToEnqueue?
  }

  /** The API publishes a row or leaves it to one outbox entry, never both; only scheduled rows are
      published by the scheduler. */
  ghost predicate HandedOnce(c: Cell) {
    && (Unpublished(c.task) ==> c.book.apiPubs == 0)
    && (Outboxed(c) ==> c.task.NoTask?)
    && (forall o1, o2 :: o1 in c.entries && o2 in c.entries ==> o1 == o2)
    && (c.row.scheduledAt.None? ==> c.book.schedPubs == 0)
  }

  lemma WorkersHandNothing(c: Cell, now: int, a: Act)
    requires Enabled(c, now, a) && (a.Take? || a.Send? || a.Leave?)
    ensures
      var e := EffectOf(c, now, a);
      && e.task == c.task && e.entry.KeepEntries? && e.row.scheduledAt == c.row.scheduledAt
      && e.book.apiPubs == c.book.apiPubs && e.book.schedPubs == c.book.schedPubs
      && e.book.dueAtCheck == c.book.dueAtCheck
  {
    match a
    case Take(_, _) =>
    case Send(_, _) =>
    case _ =>
  }

  lemma StepHandsOnce(c: Cell, now: int, a: Act)
    requires HandedOnce(c) && Locked(c) && Enabled(c, now, a)
    ensures HandedOnce(Apply(c, now, a))
  {
    if a.Take? || a.Send? || a.Leave? {
      WorkersHandNothing(c, now, a);
    } else {
      assert a.Relay? ==> a.o in c.entries;
    }
  }

  /** A row without a schedule is stranded only where a worker or the API gives it up. */
  lemma UnscheduledStrandingStep(c: Cell, now: int, a: Act)
    requires Safe(c, now) && Covered(c) && HandedOnce(c) && c.row.scheduledAt.None?
    requires Enabled(c, now, a) && !Zombie(a) && !Stranded(c) && Stranded(Apply(c, now, a))
    ensures GivesUp(c, a)
  {
    StepIsSafe(c, now, a);
    StrandingStep(c, now, a);
    if QueuesForDead(c, a) {
      OtherCopyStays(c, now, a);
    }
  }

  /** A row without a schedule that is queued for a dead copy is carried by another copy, if at all. */
  lemma OtherCopyStays(c: Cell, now: int, a: Act)
    requires Locked(c) && HandedOnce(c) && c.row.scheduledAt.None? && Enabled(c, now, a) && QueuesForDead(c, a)
    requires !Stranded(c)
    ensures !Stranded(Apply(c, now, a))
  {
    var k :| Carries(c, k);
    assert k.ByMessage?;
    assert Carries(Apply(c, now, a), k);
  }
}
