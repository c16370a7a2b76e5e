/** The delivery protocol as a state machine.  Every UPDATE, every message and every
    transaction names exactly one notification, so the two shared stores and the position of
    every process are kept per notification, in a Cell. */
module Protocol {
  import opened Domain

  const MAX_WEBHOOK_RETRIES: nat := 5
  const MARK_DELIVERED_ATTEMPTS: nat := 30
  const MARK_QUEUED_ATTEMPTS: nat := 5
  /** Exclusive bound of the random part of the backoff, in nanoseconds. */
  const JITTER: nat := 50_000_000

  /** The API's post-commit work for one newly inserted row. */
  datatype Task =
    | NoTask
    | ToClock
    | ToRead(at: int)
    | ToPublish
    | ToEnqueue
    | ToMark(copy: nat, tries: nat)

  /** A relay transaction is identified with the one outbox row it has locked. */
  datatype RelayPc = Idle | Claimed | Publishing | Committing(copy: nat) | Draining

  datatype Entry = Entry(published: bool, relay: RelayPc)

  /** A scheduler transaction is identified with the one notification row it has locked. */
  datatype SchedPc = Unlocked | SClaimed | SPublishing | SCommitting(copy: nat)

  datatype Verdict = Ack | DeadLetter | Requeue

  /** Where a worker stands in handling one delivery: the next thing it will do.  A failure is
      recorded either after this worker's own claim and post, or before it claimed anything. */
  datatype Pc =
    | Reading
    | Building
    | Limiting
    | Claiming
    | Sendable
    | Posting
    | Marking(mid: Option<string>, tries: nat)
    | Announcing
    | Failing(claimed: bool)
    | AnnouncingFailure
    | Waiting
    | Republishing
    | Releasing
    | Done(verdict: Verdict)

  /** Orphan: the handler outlived its broker connection, its message was redelivered. */
  datatype Loc = InQueue | Unacked(pc: Pc) | Orphan(pc: Pc) | Dead

  /** root: the initial publish this message descends from. */
  datatype Msg = Msg(root: nat, retry: nat, loc: Loc)

  /** What has happened so far to the descendants of one initial publish. */
  datatype Root = Root(
    oks: nat, posts: nat, transients: nat, republishes: nat, reverts: nat, limits: nat, handlings: nat, slept: nat)

  const NEW_ROOT := Root(0, 0, 0, 0, 0, 0, 0, 0)

  /** Bookkeeping that no process reads.
      owner: the message whose worker, or whose publisher, last moved the row to queued or sending.
      lost: since anything last took the row up, a process gave up a copy of a pending row, the copy
      that last moved an unfinished row, or the API's work for a row without a schedule.  A claim
      clears it, and so does MarkQueued for a copy the broker still holds. */
  datatype Book = Book(
    owner: Option<nat>, lost: bool, dueAtCheck: bool, marks: nat, events: nat, apiPubs: nat, schedPubs: nat)

  datatype Cell = Cell(
    row: Row,
    task: Task,
    entries: map<nat, Entry>,
    sched: SchedPc,
    msgs: map<nat, Msg>,
    roots: map<nat, Root>,
    next: nat,
    book: Book)

  function NewCell(row: Row): Cell {
    Cell(row, ToClock, map[], Unlocked, map[], map[], 0, Book(None, false, false, 0, 0, 0, 0))
  }

  datatype PostResult = Accepted(mid: Option<string>) | Permanent | Transient | Unknown

  datatype BuildResult = BuildOk | BuildPermanent | BuildError

  datatype WaitResult = Shutdown | Elapsed(jitter: nat)

  datatype TaskAct =
    | TakeTime
    | ReadBack(db: Db)
    | TryPublish(ok: bool)
    | Enqueue(id: nat, db: Db)
    | MarkTask(db: Db)
    | Abandon

  datatype RelayAct = RClaim | RRead(db: Db) | RPublish(ok: bool) | RCommit(db: Db) | RDrain(db: Db) | RCrash

  datatype SchedAct = SClaim | SRead(db: Db) | SPublish(ok: bool) | SCommit(db: Db) | SCrash

  /** Taking a delivery as far as claiming the row. */
  datatype TakeAct = Deliver | Read(db: Db) | Build(built: BuildResult) | Limit(ok: bool) | MarkSending(db: Db)

  /** Posting to the webhook and recording a final outcome. */
  datatype SendAct =
    | BeginPost
    | EndPost(res: PostResult)
    | MarkDelivered(db: Db)
    | GiveUp
    | Announce(ok: bool)
    | MarkFailed(db: Db)
    | AnnounceFailure

  /** Backing off, handing the message on, and settling the delivery with the broker. */
  datatype LeaveAct = Wait(w: WaitResult) | Republish(ok: bool) | Release(db: Db) | Settle | Crash | LoseConnection

  datatype Act =
    | Api(t: TaskAct)
    | Relay(o: nat, r: RelayAct)
    | Sched(s: SchedAct)
    | Take(m: nat, k: TakeAct)
    | Send(m: nat, p: SendAct)
    | Leave(m: nat, l: LeaveAct)
    | Cancel(db: Db)

  predicate DueBy(row: Row, now: int) {
    row.scheduledAt.Some? ==> row.scheduledAt.value <= now
  }

  predicate Running(loc: Loc) {
    loc.Unacked? || loc.Orphan?
  }

  /** A worker position from which the message can only be acked or dead-lettered. */
  predicate Spent(pc: Pc) {
    pc.Announcing? || pc.AnnouncingFailure? || pc == Done(Ack) || pc == Done(DeadLetter)
  }

  /** The broker still holds the message and it will be handled further. */
  predicate Live(loc: Loc) {
    loc.InQueue? || (loc.Unacked? && !Spent(loc.pc))
  }

  predicate Alive(c: Cell, m: nat) {
    m in c.msgs && Live(c.msgs[m].loc)
  }

  /** An UPDATE of a row locked by a scheduler transaction waits; it can only end by failing
      without effect. */
  predicate Writable(c: Cell, db: Db) {
    c.sched.Unlocked? || db == Fault(false)
  }

  function BackoffMs(retry: nat): nat {
    var d := 250 * Pow2(retry);
    if d < 30_000 then d else 30_000
  }

  function Pow2(n: nat): nat {
    if n == 0 then 1 else 2 * Pow2(n - 1)
  }

  // ---- what each process may do next ---------------------------------------------------

  predicate TaskEnabled(c: Cell, a: TaskAct) {
    match a
    case TakeTime => c.task.ToClock?
    case ReadBack(_) => c.task.ToRead?
    case TryPublish(_) => c.task.ToPublish?
    case Enqueue(id, _) => c.task.ToEnqueue? && id !in c.entries
    case MarkTask(db) => c.task.ToMark? && Writable(c, db)
    case Abandon => !c.task.NoTask?
  }

  predicate RelayEnabled(c: Cell, o: nat, a: RelayAct) {
    o in c.entries &&
    var e := c.entries[o];
    match a
    case RClaim => !e.published && e.relay.Idle?
    case RRead(_) => e.relay.Claimed?
    case RPublish(_) => e.relay.Publishing?
    case RCommit(db) => e.relay.Committing? && Writable(c, db)
    case RDrain(_) => e.relay.Draining?
    case RCrash => !e.relay.Idle?
  }

  predicate SchedEnabled(c: Cell, now: int, a: SchedAct) {
    match a
    case SClaim => c.sched.Unlocked? && c.row.status.Pending? && c.row.scheduledAt.Some? && DueBy(c.row, now)
    case SRead(_) => c.sched.SClaimed?
    case SPublish(_) => c.sched.SPublishing?
    case SCommit(_) => c.sched.SCommitting?
    case SCrash => !c.sched.Unlocked?
  }

  predicate Handling(c: Cell, m: nat) {
    m in c.msgs && Running(c.msgs[m].loc)
  }

  predicate TakeEnabled(c: Cell, m: nat, a: TakeAct) {
    if a.Deliver? then m in c.msgs && c.msgs[m].loc.InQueue?
    else
      Handling(c, m) &&
      var pc := c.msgs[m].loc.pc;
      match a
      case Deliver => false
      case Read(_) => pc.Reading?
      case Build(_) => pc.Building?
      case Limit(_) => pc.Limiting?
      case MarkSending(db) => pc.Claiming? && Writable(c, db)
  }

  predicate SendEnabled(c: Cell, m: nat, a: SendAct) {
    Handling(c, m) &&
    var pc := c.msgs[m].loc.pc;
    match a
    case BeginPost => pc.Sendable?
    case EndPost(_) => pc.Posting?
    case MarkDelivered(db) => pc.Marking? && Writable(c, db)
    case GiveUp => pc.Marking? && pc.tries > 0
    case Announce(_) => pc.Announcing?
    case MarkFailed(db) => pc.Failing? && Writable(c, db)
    case AnnounceFailure => pc.AnnouncingFailure?
  }

  predicate LeaveEnabled(c: Cell, m: nat, a: LeaveAct) {
    Handling(c, m) &&
    var pc := c.msgs[m].loc.pc;
    match a
    case Wait(w) => pc.Waiting? && (w.Elapsed? ==> w.jitter < JITTER)
    case Republish(_) => pc.Republishing?
    case Release(db) => pc.Releasing? && Writable(c, db)
    case Settle => pc.Done?
    case Crash => true
    case LoseConnection => c.msgs[m].loc.Unacked?
  }

  predicate Enabled(c: Cell, now: int, a: Act) {
    match a
    case Api(t) => TaskEnabled(c, t)
    case Relay(o, r) => RelayEnabled(c, o, r)
    case Sched(s) => SchedEnabled(c, now, s)
    case Take(m, k) => TakeEnabled(c, m, k)
    case Send(m, p) => SendEnabled(c, m, p)
    case Leave(m, l) => LeaveEnabled(c, m, l)
    case Cancel(db) => Writable(c, db)
  }

  // ---- effects ---------------------------------------------------------------------------

  datatype MsgChange = Keep | Move(m: nat, loc: Loc, root: Root) | Remove(m: nat)

  /** Fresh: an initial publish.  Child: a message derived from one already there. */
  datatype Spawn = NoSpawn | Fresh | Child(msg: Msg)

  datatype EntryChange = KeepEntries | SetEntry(id: nat, entry: Entry)

  /** What one step changes. */
  datatype Effect = Effect(
    row: Row, book: Book, task: Task, sched: SchedPc, entry: EntryChange, change: MsgChange, spawn: Spawn)

  function Same(c: Cell): Effect {
    Effect(c.row, c.book, c.task, c.sched, KeepEntries, Keep, NoSpawn)
  }

  function MsgsAfter(c: Cell, change: MsgChange): map<nat, Msg>
    requires change.Keep? || change.m in c.msgs
  {
    match change
    case Keep => c.msgs
    case Move(m, loc, _) => c.msgs[m := c.msgs[m].(loc := loc)]
    case Remove(m) => c.msgs - {m}
  }

  function RootsAfter(c: Cell, change: MsgChange): map<nat, Root>
    requires change.Keep? || change.m in c.msgs
  {
    if change.Move? then c.roots[c.msgs[change.m].root := change.root] else c.roots
  }

  /** The cell after the changes.  A fresh message starts in the queue without a retry header
      and is its own root. */
  function Install(c: Cell, e: Effect): Cell
    requires e.change.Keep? || e.change.m in c.msgs
  {
    var msgs := MsgsAfter(c, e.change);
    var roots := RootsAfter(c, e.change);
    Cell(
      e.row,
      e.task,
      if e.entry.KeepEntries? then c.entries else c.entries[e.entry.id := e.entry.entry],
      e.sched,
      match e.spawn {
        case NoSpawn => msgs
        case Fresh => msgs[c.next := Msg(c.next, 0, InQueue)]
        case Child(msg) => msgs[c.next := msg]
      },
      if e.spawn.Fresh? then roots[c.next := NEW_ROOT] else roots,
      if e.spawn.NoSpawn? then c.next else c.next + 1,
      e.book)
  }

  /** Rows without a schedule are handed over by the API alone; a scheduled row that is still
      pending stays in reach of the scheduler. */
  predicate TaskLoses(c: Cell) {
    c.row.scheduledAt.None? && !Terminal(c.row.status)
  }

  function WithLoss(b: Book, drop: bool): Book {
    b.(lost := b.lost || drop)
  }

  /** Pending to queued, by the publisher of `copy`. */
  function QueuedBy(c: Cell, e: Effect, copy: nat, db: Db): Effect {
    if Guard(ToQueued, e.row.status) && (db.Fine? || db.applied)
    then e.(row := Exec(ToQueued, e.row), book := e.book.(owner := Some(copy), lost := e.book.lost && !Alive(c, copy)))
    else e
  }

  function TaskEffect(c: Cell, now: int, a: TaskAct): Effect
    requires TaskEnabled(c, a)
  {
    match a
    case TakeTime =>
      Same(c).(task := ToRead(now), book := c.book.(dueAtCheck := c.row.scheduledAt.Some? && DueBy(c.row, now)))
    case ReadBack(db) =>
      if !db.Fine? then Same(c).(task := NoTask, book := WithLoss(c.book, TaskLoses(c)))
      else if !DueBy(c.row, c.task.at) then Same(c).(task := NoTask)
      else Same(c).(task := ToPublish)
    case TryPublish(ok) =>
      if ok then Same(c).(task := ToMark(c.next, 0), book := c.book.(apiPubs := c.book.apiPubs + 1), spawn := Fresh)
      else Same(c).(task := ToEnqueue)
    case Enqueue(id, db) =>
      if db.Fine? || db.applied then Same(c).(task := NoTask, entry := SetEntry(id, Entry(false, Idle)))
      else Same(c).(task := NoTask, book := WithLoss(c.book, TaskLoses(c)))
    case MarkTask(db) =>
      QueuedBy(c, Same(c), c.task.copy, db).(
        task := if Reported(ToQueued, c.row, db) || c.task.tries + 1 >= MARK_QUEUED_ATTEMPTS then NoTask
                else ToMark(c.task.copy, c.task.tries + 1))
    case Abandon =>
      Same(c).(task := NoTask, book := WithLoss(c.book, !c.task.ToMark? && TaskLoses(c)))
  }

  function RelayTo(c: Cell, o: nat, pc: RelayPc): Effect
    requires o in c.entries
  {
    Same(c).(entry := SetEntry(o, c.entries[o].(relay := pc)))
  }

  function RelayEffect(c: Cell, o: nat, a: RelayAct): Effect
    requires RelayEnabled(c, o, a)
  {
    match a
    case RClaim => RelayTo(c, o, Claimed)
    case RRead(db) =>
      if !db.Fine? then RelayTo(c, o, Idle)
      else if !c.row.status.Pending? then RelayTo(c, o, Draining)
      else RelayTo(c, o, Publishing)
    case RPublish(ok) =>
      if ok then RelayTo(c, o, Committing(c.next)).(book := c.book.(apiPubs := c.book.apiPubs + 1), spawn := Fresh)
      else RelayTo(c, o, Idle)
    case RCommit(db) =>
      if Guard(ToQueued, c.row.status) && (db.Fine? || db.applied)
      then QueuedBy(c, Same(c), c.entries[o].relay.copy, db).(entry := SetEntry(o, Entry(true, Idle)))
      else RelayTo(c, o, Idle)
    case RDrain(db) =>
      if db.Fine? || db.applied then Same(c).(entry := SetEntry(o, Entry(true, Idle)))
      else RelayTo(c, o, Idle)
    case RCrash => RelayTo(c, o, Idle)
  }

  function SchedEffect(c: Cell, now: int, a: SchedAct): Effect
    requires SchedEnabled(c, now, a)
  {
    match a
    case SClaim => Same(c).(sched := SClaimed)
    case SRead(db) =>
      if !db.Fine? || !c.row.status.Pending? || c.row.scheduledAt.None? then Same(c).(sched := Unlocked)
      else Same(c).(sched := SPublishing)
    case SPublish(ok) =>
      if ok
      then Same(c).(sched := SCommitting(c.next), book := c.book.(schedPubs := c.book.schedPubs + 1), spawn := Fresh)
      else Same(c).(sched := Unlocked)
    case SCommit(db) => QueuedBy(c, Same(c), c.sched.copy, db).(sched := Unlocked)
    case SCrash => Same(c).(sched := Unlocked)
  }

  /** Dropping message m may leave the row behind: it is not finished, and either m was the message
      that last moved it or nothing has moved it yet, so that MarkQueued may still name m. */
  predicate LeavesBehind(row: Row, book: Book, m: nat) {
    !Terminal(row.status) && (book.owner == Some(m) || row.status.Pending?)
  }

  /** Message m leaves the protocol here, with the row as given. */
  function Dropping(e: Effect, m: nat): Effect {
    e.(book := WithLoss(e.book, LeavesBehind(e.row, e.book, m)))
  }

  function RootOf(c: Cell, m: nat): Root
    requires m in c.msgs
  {
    if c.msgs[m].root in c.roots then c.roots[c.msgs[m].root] else NEW_ROOT
  }

  function Goto(c: Cell, m: nat, pc: Pc, root: Root): Effect
    requires m in c.msgs && Running(c.msgs[m].loc)
  {
    Same(c).(change := Move(m, if c.msgs[m].loc.Unacked? then Unacked(pc) else Orphan(pc), root))
  }

  function TakeEffect(c: Cell, m: nat, a: TakeAct): Effect
    requires TakeEnabled(c, m, a)
  {
    var root := RootOf(c, m);
    match a
    case Deliver => Same(c).(change := Move(m, Unacked(Reading), root.(handlings := root.handlings + 1)))
    case Read(db) =>
      if !db.Fine? then Dropping(Goto(c, m, Done(DeadLetter), root), m)
      else if Terminal(c.row.status) then Goto(c, m, Done(Ack), root)
      else Goto(c, m, Building, root)
    case Build(b) =>
      if b.BuildOk? then Goto(c, m, Limiting, root)
      else if b.BuildPermanent? then Goto(c, m, Failing(false), root)
      else Dropping(Goto(c, m, Done(DeadLetter), root), m)
    case Limit(ok) =>
      if ok then Goto(c, m, Claiming, root)
      else Goto(c, m, Done(Requeue), root.(limits := root.limits + 1))
    case MarkSending(db) =>
      if Reported(ToSending, c.row, db)
      then
        var lost := c.book.lost && c.msgs[m].loc.Orphan?;
        Goto(c, m, Sendable, root).(row := Exec(ToSending, c.row), book := c.book.(owner := Some(m), lost := lost))
      else Dropping(Goto(c, m, Done(Ack), root), m).(row := ExecDb(ToSending, c.row, db))
  }

  function SendEffect(c: Cell, m: nat, a: SendAct): Effect
    requires SendEnabled(c, m, a)
  {
    var msg := c.msgs[m];
    var root := RootOf(c, m);
    match a
    case BeginPost => Goto(c, m, Posting, root.(posts := root.posts + 1))
    case EndPost(res) =>
      if res.Accepted? then Goto(c, m, Marking(res.mid, 0), root.(oks := root.oks + 1))
      else if !res.Transient? then Goto(c, m, Failing(true), root)
      else Goto(c, m, if msg.retry >= MAX_WEBHOOK_RETRIES then Failing(true) else Waiting,
                root.(transients := root.transients + 1))
    case MarkDelivered(db) =>
      var mid, tries := msg.loc.pc.mid, msg.loc.pc.tries;
      var row := ExecDb(ToDelivered(mid), c.row, db);
      if Reported(ToDelivered(mid), c.row, db)
      then Goto(c, m, Announcing, root).(row := row, book := c.book.(marks := c.book.marks + 1))
      else if tries + 1 < MARK_DELIVERED_ATTEMPTS then Goto(c, m, Marking(mid, tries + 1), root).(row := row)
      else Dropping(Goto(c, m, Done(DeadLetter), root).(row := row), m)
    case GiveUp => Dropping(Goto(c, m, Done(DeadLetter), root), m)
    case Announce(ok) =>
      Goto(c, m, Done(Ack), root).(book := c.book.(events := c.book.events + if ok then 1 else 0))
    case MarkFailed(db) =>
      Dropping(Goto(c, m, AnnouncingFailure, root).(row := ExecDb(ToFailed, c.row, db)), m)
    case AnnounceFailure => Goto(c, m, Done(Ack), root)
  }

  function LeaveEffect(c: Cell, m: nat, a: LeaveAct): Effect
    requires LeaveEnabled(c, m, a)
  {
    var msg := c.msgs[m];
    var root := RootOf(c, m);
    match a
    case Wait(w) =>
      if w.Shutdown? then Goto(c, m, Releasing, root)
      else Goto(c, m, Republishing, root.(slept := root.slept + BackoffMs(msg.retry) * 1_000_000 + w.jitter))
    case Republish(ok) =>
      if ok
      then Goto(c, m, Done(Ack), root.(republishes := root.republishes + 1)).(
           spawn := Child(Msg(msg.root, msg.retry + 1, InQueue)),
           book := c.book.(owner := if c.book.owner == Some(m) then Some(c.next) else c.book.owner))
      else Goto(c, m, Releasing, root)
    case Release(db) =>
      Goto(c, m, Done(Requeue), root.(reverts := root.reverts + 1)).(
        row := ExecDb(ToReleased, c.row, db),
        book := c.book.(owner := if Guard(ToReleased, c.row.status) && (db.Fine? || db.applied) then Some(m)
                                 else c.book.owner))
    case Settle =>
      if msg.loc.Orphan? || msg.loc.pc.verdict.Ack? then Same(c).(change := Remove(m))
      else Same(c).(change := Move(m, if msg.loc.pc.verdict.DeadLetter? then Dead else InQueue, root))
    case Crash =>
      if msg.loc.Orphan? then Same(c).(change := Remove(m))
      else Same(c).(change := Move(m, InQueue, root))
    case LoseConnection =>
      Same(c).(change := Move(m, InQueue, root), spawn := Child(msg.(loc := Orphan(msg.loc.pc))))
  }

  function EffectOf(c: Cell, now: int, a: Act): (e: Effect)
    requires Enabled(c, now, a)
    ensures e.change.Keep? || e.change.m in c.msgs
  {
    match a
    case Api(t) => TaskEffect(c, now, t)
    case Relay(o, r) => RelayEffect(c, o, r)
    case Sched(s) => SchedEffect(c, now, s)
    case Take(m, k) => TakeEffect(c, m, k)
    case Send(m, p) => SendEffect(c, m, p)
    case Leave(m, l) => LeaveEffect(c, m, l)
    case Cancel(db) => Same(c).(row := ExecDb(ToCancelled, c.row, db))
  }

  function Apply(c: Cell, now: int, a: Act): Cell
    requires Enabled(c, now, a)
  {
    Install(c, EffectOf(c, now, a))
  }
}
