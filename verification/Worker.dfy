/** One worker's handling of one delivery. */
module Worker {
  import opened Domain
  import opened Protocol
  import opened Runs
  import opened Processes
  import opened Wire
  import Backoff
  import Tallies
  import Theorems

  /** What the handler's return value means to the consumer loop. */
  datatype HandlerError = NoError | RequeueError | OtherError

  /** How the calls of one handling turn out, and what everything else does meanwhile.  took: the
      milliseconds each attempt to record a delivery took; cut: if the process is shutting down, the
      milliseconds after which the wait that follows was cut short. */
  datatype Outcomes = Outcomes(
    plan: nat -> seq<Step>,
    db: nat -> Db,
    look: Lookup,
    admitted: bool,
    post: PostResult,
    took: nat -> nat,
    cut: nat -> Option<nat>,
    announced: bool,
    wait: WaitResult,
    republished: bool)

  function VerdictOf(err: HandlerError): Verdict {
    match err
    case NoError => Ack
    case RequeueError => Requeue
    case OtherError => DeadLetter
  }

  ghost predicate At(s: State, n: nat, m: nat, pc: Pc, retry: nat) {
    && n in s.cells && m in s.cells[n].msgs
    && s.cells[n].msgs[m].loc == Unacked(pc) && s.cells[n].msgs[m].retry == retry
  }

  /** In the steps after `before` the handler itself did exactly this. */
  ghost predicate Logs(before: seq<Step>, steps: seq<Step>, n: nat, m: nat, did: seq<Act>) {
    Log(steps, Handler(n, m)) == Log(before, Handler(n, m)) + did
  }

  lemma LogsJoin(s0: seq<Step>, s1: seq<Step>, s2: seq<Step>, n: nat, m: nat, a: seq<Act>, b: seq<Act>)
    requires Logs(s0, s1, n, m, a) && Logs(s1, s2, n, m, b)
    ensures Logs(s0, s2, n, m, a + b)
  {
    var log := Log(s0, Handler(n, m));
    assert (log + a) + b == log + (a + b);
  }

  /** An UPDATE of a row that a scheduler transaction keeps locked ends in a timeout. */
  function Waited(c: Cell, db: Db): Db {
    if c.sched.Unlocked? then db else Fault(false)
  }

  method GetByID(w: World, n: nat, m: nat, db: Db, plan: seq<Step>, ghost retry: nat) returns (row: Row, ok: bool)
    requires w.Valid() && At(w.s, n, m, Reading, retry)
    modifies w
    ensures w.Valid() && w.Since(old(w.states), old(w.steps)) && ok == db.Fine?
    ensures At(w.s, n, m, if !ok then Done(DeadLetter) else if Terminal(row.status) then Done(Ack) else Building, retry)
    ensures row == w.s.cells[n].row
    ensures ReadInRun(w.states, w.steps, |old(w.steps)|, n, m, db, row)
    ensures Logs(old(w.steps), w.steps, n, m, [Take(m, Read(db))])
  {
    w.Others(Handler(n, m), plan);
    row, ok := w.s.cells[n].row, db.Fine?;
    w.Perform(Do(n, Take(m, Read(db))));
    LastLogged(old(w.steps), w.steps, Handler(n, m));
  }

  function AfterBuild(built: BuildResult): Pc {
    match built
    case BuildOk => Limiting
    case BuildPermanent => Failing(false)
    case BuildError => Done(DeadLetter)
  }

  method BuildOutboundEnvelope(w: World, n: nat, m: nat, built: BuildResult, plan: seq<Step>, ghost retry: nat)
    requires w.Valid() && At(w.s, n, m, Building, retry)
    modifies w
    ensures w.Valid() && w.Since(old(w.states), old(w.steps))
    ensures At(w.s, n, m, AfterBuild(built), retry)
    ensures Logs(old(w.steps), w.steps, n, m, [Take(m, Build(built))])
  {
    w.Others(Handler(n, m), plan);
    w.Perform(Do(n, Take(m, Build(built))));
    LastLogged(old(w.steps), w.steps, Handler(n, m));
  }

  method LimiterWait(w: World, n: nat, m: nat, admitted: bool, plan: seq<Step>, ghost retry: nat)
    requires w.Valid() && At(w.s, n, m, Limiting, retry)
    modifies w
    ensures w.Valid() && w.Since(old(w.states), old(w.steps))
    ensures At(w.s, n, m, if admitted then Claiming else Done(Requeue), retry)
    ensures Logs(old(w.steps), w.steps, n, m, [Take(m, Limit(admitted))])
  {
    w.Others(Handler(n, m), plan);
    w.Perform(Do(n, Take(m, Limit(admitted))));
    LastLogged(old(w.steps), w.steps, Handler(n, m));
  }

  method TryMarkSending(w: World, n: nat, m: nat, db: Db, plan: seq<Step>, ghost retry: nat)
    returns (ok: bool, ghost ended: Db)
    requires w.Valid() && At(w.s, n, m, Claiming, retry)
    modifies w
    ensures w.Valid() && w.Since(old(w.states), old(w.steps))
    ensures At(w.s, n, m, if ok then Sendable else Done(Ack), retry)
    ensures ok ==> w.s.cells[n].row.status.Sending?
    ensures EndsAs(ended, db) && Logs(old(w.steps), w.steps, n, m, [Take(m, MarkSending(ended))])
  {
    w.Others(Handler(n, m), plan);
    var c := w.s.cells[n];
    ok, ended := Reported(ToSending, c.row, Waited(c, db)), Waited(c, db);
    w.Perform(Do(n, Take(m, MarkSending(Waited(c, db)))));
    LastLogged(old(w.steps), w.steps, Handler(n, m));
  }

  function AfterPost(res: PostResult, retry: nat): Pc {
    match res
    case Accepted(mid) => Marking(mid, 0)
    case Transient => if retry >= MAX_WEBHOOK_RETRIES then Failing(true) else Waiting
    case _ => Failing(true)
  }

  method Post(w: World, n: nat, m: nat, res: PostResult, before: seq<Step>, during: seq<Step>, ghost retry: nat)
    requires w.Valid() && At(w.s, n, m, Sendable, retry)
    modifies w
    ensures w.Valid() && w.Since(old(w.states), old(w.steps)) && At(w.s, n, m, AfterPost(res, retry), retry)
    ensures Logs(old(w.steps), w.steps, n, m, [Send(m, BeginPost), Send(m, EndPost(res))])
  {
    SendRequest(w, n, m, before, retry);
    ghost var steps1 := w.steps;
    w.Others(Handler(n, m), during);
    w.Perform(Do(n, Send(m, EndPost(res))));
    LastLogged(steps1, w.steps, Handler(n, m));
    LogsJoin(old(w.steps), steps1, w.steps, n, m, [Send(m, BeginPost)], [Send(m, EndPost(res))]);
  }

  method SendRequest(w: World, n: nat, m: nat, before: seq<Step>, ghost retry: nat)
    requires w.Valid() && At(w.s, n, m, Sendable, retry)
    modifies w
    ensures w.Valid() && w.Since(old(w.states), old(w.steps)) && At(w.s, n, m, Posting, retry)
    ensures Logs(old(w.steps), w.steps, n, m, [Send(m, BeginPost)])
  {
    w.Others(Handler(n, m), before);
    w.Perform(Do(n, Send(m, BeginPost)));
    LastLogged(old(w.steps), w.steps, Handler(n, m));
  }

  /** After this many failed attempts. */
  function Remaining(mid: Option<string>, tries: nat): Pc {
    if tries < MARK_DELIVERED_ATTEMPTS then Marking(mid, tries) else Done(DeadLetter)
  }

  /** The row is recorded as delivered under this webhook id. */
  ghost predicate RecordedAs(s: State, n: nat, mid: Option<string>) {
    n in s.cells && s.cells[n].row.status.Delivered? && s.cells[n].row.provider == mid
  }

  lemma NotRecordedYet(states: seq<State>, steps: seq<Step>, n: nat)
    requires Run(states, steps) && n in states[|steps|].cells
    ensures var row := states[|steps|].cells[n].row; !row.status.Delivered? ==> row.provider.None?
  {
    Theorems.DeliveredOnce(states, steps, n, |steps|);
  }

  method TryMarkDelivered(
    w: World, n: nat, m: nat, mid: Option<string>, tries: nat, db: Db, plan: seq<Step>, ghost retry: nat)
    returns (ok: bool, ghost ended: Db)
    requires w.Valid() && At(w.s, n, m, Marking(mid, tries), retry) && tries < MARK_DELIVERED_ATTEMPTS
    modifies w
    ensures w.Valid() && w.Since(old(w.states), old(w.steps))
    ensures ok ==> At(w.s, n, m, Announcing, retry) && RecordedAs(w.s, n, mid)
    ensures !ok ==> At(w.s, n, m, Remaining(mid, tries + 1), retry)
    ensures EndsAs(ended, db) && Logs(old(w.steps), w.steps, n, m, [Send(m, MarkDelivered(ended))])
  {
    w.Others(Handler(n, m), plan);
    NotRecordedYet(w.states, w.steps, n);
    var c := w.s.cells[n];
    ok, ended := Reported(ToDelivered(mid), c.row, Waited(c, db)), Waited(c, db);
    w.Perform(Do(n, Send(m, MarkDelivered(Waited(c, db)))));
    LastLogged(old(w.steps), w.steps, Handler(n, m));
  }

  const MARK_DELIVERED_DEADLINE_MS: nat := 45_000

  /** The wait after failed attempt i, unless a shutdown cuts it short. */
  function WaitedMs(i: nat, cut: Option<nat>): nat {
    if cut.Some? && cut.value < Backoff.MarkWaitMs(i) then cut.value else Backoff.MarkWaitMs(i)
  }

  /** How long k attempts and the waits after them take. */
  function Elapsed(o: Outcomes, k: nat): nat {
    if k == 0 then 0 else Elapsed(o, k - 1) + o.took(k - 1) + WaitedMs(k - 1, o.cut(k - 1))
  }

  lemma {:induction false} ElapsedAtLeast(o: Outcomes, k: nat)
    requires forall i :: o.cut(i).None?
    ensures Elapsed(o, k) >= Backoff.MarkWaits(k)
  {
    if k > 0 {
      ElapsedAtLeast(o, k - 1);
    }
  }

  /** Attempts to record a delivery, one after the other, until one works: the next one starts while
      the deadline has not passed, up to thirty of them. */
  ghost predicate Attempts(did: seq<Act>, m: nat, o: Outcomes) {
    && |did| <= 30
    && forall i :: 0 <= i < |did| ==>
         && did[i].Send? && did[i].m == m && did[i].p.MarkDelivered? && EndsAs(did[i].p.db, o.db(100 + i))
         && Elapsed(o, i) < 45_000
  }

  /** They ended without success because there were thirty of them, or because the deadline passed. */
  ghost predicate AttemptsFailed(did: seq<Act>, m: nat, o: Outcomes) {
    || (|did| == 30 && Attempts(did, m, o))
    || (&& |did| > 1 && did[|did| - 1] == Send(m, GiveUp) && Attempts(did[..|did| - 1], m, o)
        && Elapsed(o, |did| - 1) >= 45_000)
  }

  lemma OneMoreAttempt(did: seq<Act>, m: nat, o: Outcomes, ended: Db)
    requires Attempts(did, m, o) && |did| < MARK_DELIVERED_ATTEMPTS
    requires EndsAs(ended, o.db(100 + |did|)) && Elapsed(o, |did|) < MARK_DELIVERED_DEADLINE_MS
    ensures Attempts(did + [Send(m, MarkDelivered(ended))], m, o)
  {
  }

  lemma GivenUp(did: seq<Act>, m: nat, o: Outcomes)
    requires Attempts(did, m, o) && |did| > 0 && Elapsed(o, |did|) >= MARK_DELIVERED_DEADLINE_MS
    ensures AttemptsFailed(did + [Send(m, GiveUp)], m, o)
  {
    assert (did + [Send(m, GiveUp)])[..|did|] == did;
  }

  /** Unless a shutdown cuts the waits short the deadline passes before the last three attempts. */
  lemma AttemptsBound(did: seq<Act>, m: nat, o: Outcomes)
    requires Attempts(did, m, o) && forall i :: o.cut(i).None?
    ensures |did| <= 27
  {
    if |did| > 0 {
      assert did[|did| - 1].Send?;
      ElapsedAtLeast(o, |did| - 1);
      Backoff.DeadlineBeforeLastAttempts(|did| - 1);
    }
  }

  /** Up to thirty attempts, or until the deadline passes. */
  method MarkDeliveredWithRetry(w: World, n: nat, m: nat, mid: Option<string>, o: Outcomes, ghost retry: nat)
    returns (ok: bool, ghost did: seq<Act>)
    requires w.Valid() && At(w.s, n, m, Marking(mid, 0), retry)
    modifies w
    ensures w.Valid() && w.Since(old(w.states), old(w.steps))
    ensures At(w.s, n, m, if ok then Announcing else Done(DeadLetter), retry)
    ensures Logs(old(w.steps), w.steps, n, m, did)
    ensures ok ==> |did| > 0 && Attempts(did, m, o) && RecordedAs(w.s, n, mid)
    ensures !ok ==> AttemptsFailed(did, m, o)
  {
    var attempts, elapsed := 0, 0;
    ok, did := false, [];
    while attempts < MARK_DELIVERED_ATTEMPTS
      invariant attempts <= MARK_DELIVERED_ATTEMPTS && w.Valid() && w.Since(old(w.states), old(w.steps))
      invariant At(w.s, n, m, Remaining(mid, attempts), retry)
      invariant Logs(old(w.steps), w.steps, n, m, did) && Attempts(did, m, o) && |did| == attempts
      invariant !ok && elapsed == Elapsed(o, attempts)
    {
      if elapsed >= MARK_DELIVERED_DEADLINE_MS {
        did := GiveUpMarking(w, n, m, mid, attempts, o, retry, old(w.steps), did);
        return;
      }
      ok, did := AttemptToMark(w, n, m, mid, attempts, o, retry, old(w.steps), did);
      attempts := attempts + 1;
      if ok {
        return;
      }
      elapsed := elapsed + o.took(attempts - 1) + WaitedMs(attempts - 1, o.cut(attempts - 1));
    }
  }

  method AttemptToMark(
    w: World, n: nat, m: nat, mid: Option<string>, tries: nat, o: Outcomes, ghost retry: nat,
    ghost before: seq<Step>, ghost did: seq<Act>)
    returns (ok: bool, ghost more: seq<Act>)
    requires w.Valid() && At(w.s, n, m, Marking(mid, tries), retry) && tries < MARK_DELIVERED_ATTEMPTS
    requires Logs(before, w.steps, n, m, did) && Attempts(did, m, o) && |did| == tries
    requires Elapsed(o, tries) < MARK_DELIVERED_DEADLINE_MS
    modifies w
    ensures w.Valid() && w.Since(old(w.states), old(w.steps))
    ensures ok ==> At(w.s, n, m, Announcing, retry) && RecordedAs(w.s, n, mid)
    ensures !ok ==> At(w.s, n, m, Remaining(mid, tries + 1), retry)
    ensures Logs(before, w.steps, n, m, more) && Attempts(more, m, o) && |more| == tries + 1
  {
    ghost var ended;
    ok, ended := TryMarkDelivered(w, n, m, mid, tries, o.db(100 + tries), o.plan(100 + tries), retry);
    LogsJoin(before, old(w.steps), w.steps, n, m, did, [Send(m, MarkDelivered(ended))]);
    OneMoreAttempt(did, m, o, ended);
    more := did + [Send(m, MarkDelivered(ended))];
  }

  method GiveUpMarking(
    w: World, n: nat, m: nat, mid: Option<string>, tries: nat, o: Outcomes, ghost retry: nat,
    ghost before: seq<Step>, ghost did: seq<Act>)
    returns (ghost more: seq<Act>)
    requires w.Valid() && At(w.s, n, m, Marking(mid, tries), retry) && tries > 0
    requires Logs(before, w.steps, n, m, did) && Attempts(did, m, o) && |did| == tries
    requires Elapsed(o, tries) >= MARK_DELIVERED_DEADLINE_MS
    modifies w
    ensures w.Valid() && w.Since(old(w.states), old(w.steps)) && At(w.s, n, m, Done(DeadLetter), retry)
    ensures Logs(before, w.steps, n, m, more) && AttemptsFailed(more, m, o)
  {
    w.Others(Handler(n, m), o.plan(100 + tries));
    w.Perform(Do(n, Send(m, GiveUp)));
    LastLogged(old(w.steps), w.steps, Handler(n, m));
    LogsJoin(before, old(w.steps), w.steps, n, m, did, [Send(m, GiveUp)]);
    GivenUp(did, m, o);
    more := did + [Send(m, GiveUp)];
  }

  method EmitDelivered(w: World, n: nat, m: nat, sent: bool, plan: seq<Step>, ghost retry: nat)
    requires w.Valid() && At(w.s, n, m, Announcing, retry)
    modifies w
    ensures w.Valid() && w.Since(old(w.states), old(w.steps)) && At(w.s, n, m, Done(Ack), retry)
    ensures Logs(old(w.steps), w.steps, n, m, [Send(m, Announce(sent))])
  {
    w.Others(Handler(n, m), plan);
    w.Perform(Do(n, Send(m, Announce(sent))));
    LastLogged(old(w.steps), w.steps, Handler(n, m));
  }

  /** MarkFailed and the failed event. */
  ghost predicate Failures(did: seq<Act>, m: nat, db: Db) {
    && |did| == 2 && did[0].Send? && did[0].m == m && did[0].p.MarkFailed? && EndsAs(did[0].p.db, db)
    && did[1] == Send(m, AnnounceFailure)
  }

  /** MarkFailed, whose error is ignored, then the failed event. */
  method FailAndEmit(
    w: World, n: nat, m: nat, ghost claimed: bool, db: Db, before: seq<Step>, between: seq<Step>, ghost retry: nat)
    returns (ghost did: seq<Act>)
    requires w.Valid() && At(w.s, n, m, Failing(claimed), retry)
    modifies w
    ensures w.Valid() && w.Since(old(w.states), old(w.steps)) && At(w.s, n, m, Done(Ack), retry)
    ensures Logs(old(w.steps), w.steps, n, m, did) && Failures(did, m, db)
  {
    ghost var ended := TryMarkFailed(w, n, m, claimed, db, before, retry);
    ghost var steps1 := w.steps;
    w.Others(Handler(n, m), between);
    w.Perform(Do(n, Send(m, AnnounceFailure)));
    LastLogged(steps1, w.steps, Handler(n, m));
    LogsJoin(old(w.steps), steps1, w.steps, n, m, [Send(m, MarkFailed(ended))], [Send(m, AnnounceFailure)]);
    did := [Send(m, MarkFailed(ended)), Send(m, AnnounceFailure)];
  }

  /** The last step failed an unfinished row, unless the call failed, and changed nothing else of it. */
  ghost predicate FailedNow(states: seq<State>, n: nat, ended: Db) {
    |states| >= 2 &&
    var before, after := states[|states| - 2], states[|states| - 1];
    && n in before.cells && n in after.cells
    && var status := before.cells[n].row.status;
       var fails := ended != Fault(false) && (status.Pending? || status.Queued? || status.Sending?);
       after.cells[n].row == if fails then before.cells[n].row.(status := Failed) else before.cells[n].row
  }

  method TryMarkFailed(w: World, n: nat, m: nat, ghost claimed: bool, db: Db, plan: seq<Step>, ghost retry: nat)
    returns (ghost ended: Db)
    requires w.Valid() && At(w.s, n, m, Failing(claimed), retry)
    modifies w
    ensures w.Valid() && w.Since(old(w.states), old(w.steps)) && At(w.s, n, m, AnnouncingFailure, retry)
    ensures EndsAs(ended, db) && Logs(old(w.steps), w.steps, n, m, [Send(m, MarkFailed(ended))])
    ensures FailedNow(w.states, n, ended) && (w.s.cells[n].sched.Unlocked? ==> ended == db)
  {
    w.Others(Handler(n, m), plan);
    ended := Waited(w.s.cells[n], db);
    w.Perform(Do(n, Send(m, MarkFailed(Waited(w.s.cells[n], db)))));
    LastLogged(old(w.steps), w.steps, Handler(n, m));
  }

  method BackOff(w: World, n: nat, m: nat, wait: WaitResult, plan: seq<Step>, ghost retry: nat)
    requires w.Valid() && At(w.s, n, m, Waiting, retry) && (wait.Elapsed? ==> wait.jitter < JITTER)
    modifies w
    ensures w.Valid() && w.Since(old(w.states), old(w.steps))
    ensures At(w.s, n, m, if wait.Shutdown? then Releasing else Republishing, retry)
    ensures Logs(old(w.steps), w.steps, n, m, [Leave(m, Wait(wait))])
  {
    w.Others(Handler(n, m), plan);
    w.Perform(Do(n, Leave(m, Wait(wait))));
    LastLogged(old(w.steps), w.steps, Handler(n, m));
  }

  /** The last step put one new message of m's lineage into the queue. */
  ghost predicate NewCopy(states: seq<State>, n: nat, m: nat, retry: nat) {
    |states| >= 2 &&
    var before, after := states[|states| - 2], states[|states| - 1];
    && n in before.cells && n in after.cells && m in before.cells[n].msgs
    && exists k :: k !in before.cells[n].msgs && k in after.cells[n].msgs
                   && after.cells[n].msgs[k] == Msg(before.cells[n].msgs[m].root, retry, InQueue)
  }

  lemma RepublishAdds(states: seq<State>, steps: seq<Step>, n: nat, m: nat, retry: nat)
    requires Run(states, steps) && |steps| > 0 && steps[|steps| - 1] == Do(n, Leave(m, Republish(true)))
    requires At(states[|steps| - 1], n, m, Republishing, retry)
    ensures NewCopy(states, n, m, retry + 1)
  {
    var i := |steps| - 1;
    Theorems.CellSafe(states, steps, i, n);
    Tallies.CellStep(states, steps, n, i + 1);
    var before, after := states[i].cells[n], states[i + 1].cells[n];
    assert before.next !in before.msgs && before.next in after.msgs;
  }

  method RepublishDelivery(w: World, n: nat, m: nat, ok: bool, plan: seq<Step>, ghost retry: nat)
    requires w.Valid() && At(w.s, n, m, Republishing, retry)
    modifies w
    ensures w.Valid() && w.Since(old(w.states), old(w.steps))
    ensures At(w.s, n, m, if ok then Done(Ack) else Releasing, retry)
    ensures ok ==> NewCopy(w.states, n, m, retry + 1)
    ensures Logs(old(w.steps), w.steps, n, m, [Leave(m, Republish(ok))])
  {
    w.Others(Handler(n, m), plan);
    RepublishNow(w, n, m, ok, retry);
    LastLogged(old(w.steps), w.steps, Handler(n, m));
  }

  method RepublishNow(w: World, n: nat, m: nat, ok: bool, ghost retry: nat)
    requires w.Valid() && At(w.s, n, m, Republishing, retry)
    modifies w
    ensures w.Valid() && w.Since(old(w.states), old(w.steps))
    ensures w.steps == old(w.steps) + [Do(n, Leave(m, Republish(ok)))]
    ensures At(w.s, n, m, if ok then Done(Ack) else Releasing, retry)
    ensures ok ==> NewCopy(w.states, n, m, retry + 1)
  {
    w.Perform(Do(n, Leave(m, Republish(ok))));
    if ok {
      RepublishAdds(w.states, w.steps, n, m, retry);
    }
  }

  /** The last step put a sending row back to queued, unless the call failed, and changed nothing else. */
  ghost predicate ReleasedNow(states: seq<State>, n: nat, ended: Db) {
    |states| >= 2 &&
    var before, after := states[|states| - 2], states[|states| - 1];
    && n in before.cells && n in after.cells
    && var released := ended != Fault(false) && before.cells[n].row.status.Sending?;
       after.cells[n].row == if released then before.cells[n].row.(status := Queued) else before.cells[n].row
  }

  method RevertSendingAndRequeue(w: World, n: nat, m: nat, db: Db, plan: seq<Step>, ghost retry: nat)
    returns (err: HandlerError, ghost ended: Db)
    requires w.Valid() && At(w.s, n, m, Releasing, retry)
    modifies w
    ensures w.Valid() && w.Since(old(w.states), old(w.steps)) && err.RequeueError?
    ensures At(w.s, n, m, Done(Requeue), retry)
    ensures EndsAs(ended, db) && Logs(old(w.steps), w.steps, n, m, [Leave(m, Release(ended))])
    ensures ReleasedNow(w.states, n, ended) && (w.s.cells[n].sched.Unlocked? ==> ended == db)
  {
    w.Others(Handler(n, m), plan);
    err, ended := RequeueError, Waited(w.s.cells[n], db);
    w.Perform(Do(n, Leave(m, Release(Waited(w.s.cells[n], db)))));
    LastLogged(old(w.steps), w.steps, Handler(n, m));
  }

  /** Later changes of the row do not change what is built from it, nor does it matter in which state
      the message was published. */
  lemma BuildStable(states: seq<State>, steps: seq<Step>, i: nat, j: nat, n: nat, look: Lookup)
    requires Run(states, steps) && i <= j < |states| && n in states[i].cells
    ensures n in states[j].cells
    ensures Sendout(states[i].cells[n].row, n, look) == Sendout(states[j].cells[n].row, n, look)
    ensures Sendout(states[j].cells[n].row, n, look) == BuiltLater(states, i, j, n, look)
  {
    Theorems.StatusMachine(states, steps, i, j, n);
  }

  /** What is built for a message about this row; the message has the row's columns. */
  function Sendout(row: Row, n: nat, look: Lookup): Built {
    BuildOutbound(row, EnvelopeOf(n, row), look)
  }

  // ---- what the handler does, as a whole ---------------------------------------------------------------

  ghost predicate Released(did: seq<Act>, m: nat, db: Db) {
    |did| == 1 && did[0].Leave? && did[0].m == m && did[0].l.Release? && EndsAs(did[0].l.db, db)
  }

  /** A transient answer with retries left: back off, and republish unless shutting down; what is not
      republished is released and requeued. */
  ghost predicate Retried(did: seq<Act>, m: nat, o: Outcomes, err: HandlerError) {
    |did| > 0 && did[0] == Leave(m, Wait(o.wait)) &&
    if o.wait.Shutdown? then err.RequeueError? && Released(did[1..], m, o.db(4))
    else
      |did| > 1 && did[1] == Leave(m, Republish(o.republished)) &&
      if o.republished then |did| == 2 && err.NoError? else err.RequeueError? && Released(did[2..], m, o.db(4))
  }

  /** The delivery recorded and announced, or not recorded in time. */
  ghost predicate Recorded(did: seq<Act>, m: nat, o: Outcomes, err: HandlerError) {
    if err.NoError?
    then |did| > 1 && did[|did| - 1] == Send(m, Announce(o.announced)) && Attempts(did[..|did| - 1], m, o)
    else err.OtherError? && AttemptsFailed(did, m, o)
  }

  ghost predicate Concluded(did: seq<Act>, m: nat, o: Outcomes, retry: nat, err: HandlerError) {
    if o.post.Accepted? then Recorded(did, m, o, err)
    else if o.post.Transient? && retry < 5 then Retried(did, m, o, err)
    else err.NoError? && Failures(did, m, o.db(3))
  }

  ghost predicate LimitedAndSent(did: seq<Act>, m: nat, o: Outcomes, retry: nat, err: HandlerError, sent: bool) {
    |did| > 0 && did[0] == Take(m, Limit(o.admitted)) &&
    if !o.admitted then |did| == 1 && err.RequeueError? && !sent
    else
      |did| > 1 && did[1].Take? && did[1].m == m && did[1].k.MarkSending? && EndsAs(did[1].k.db, o.db(2)) &&
      if !sent then |did| == 2 && err.NoError?
      else
        && |did| > 3 && did[2] == Send(m, BeginPost) && did[3] == Send(m, EndPost(o.post))
        && Concluded(did[4..], m, o, retry, err)
  }

  ghost predicate Processed(
    did: seq<Act>, m: nat, built: Built, o: Outcomes, retry: nat, err: HandlerError, posted: Option<Envelope>)
  {
    |did| > 0 &&
    match built
    case Outbound(env) =>
      && did[0] == Take(m, Build(BuildOk)) && LimitedAndSent(did[1..], m, o, retry, err, posted.Some?)
      && (posted.Some? ==> posted.value == env)
    case LookupError => did == [Take(m, Build(BuildError))] && err.OtherError? && posted.None?
    case _ => did[0] == Take(m, Build(BuildPermanent)) && Failures(did[1..], m, o.db(1)) && err.NoError? && posted.None?
  }

  /** Everything the handler does, given the row it read, and what it returns. */
  ghost predicate Handled(
    did: seq<Act>, m: nat, n: nat, seen: Row, o: Outcomes, retry: nat, err: HandlerError, posted: Option<Envelope>)
  {
    |did| > 0 && did[0] == Take(m, Read(o.db(0))) &&
    if !o.db(0).Fine? then |did| == 1 && err.OtherError? && posted.None?
    else if Terminal(seen.status) then |did| == 1 && err.NoError? && posted.None?
    else Processed(did[1..], m, Sendout(seen, n, o.look), o, retry, err, posted)
  }

  // What this means, act by act.

  predicate Records(a: Act) {
    a.Send? && (a.p.MarkDelivered? || a.p.GiveUp? || a.p.Announce?)
  }

  predicate Fails(a: Act) {
    a.Send? && (a.p.MarkFailed? || a.p.AnnounceFailure?)
  }

  /** The answer fails the row: an error the webhook will not recover from, or the last retry used. */
  predicate Refuses(res: PostResult, retry: nat) {
    res.Permanent? || res.Unknown? || (res.Transient? && retry >= 5)
  }

  /** The row was there, unfinished, and the message could be built. */
  ghost predicate Ready(seen: Row, n: nat, o: Outcomes) {
    o.db(0).Fine? && !Terminal(seen.status) && Sendout(seen, n, o.look).Outbound?
  }

  /** The row was there, unfinished, and the message can never be built. */
  ghost predicate Unbuildable(seen: Row, n: nat, o: Outcomes) {
    o.db(0).Fine? && !Terminal(seen.status) && !Sendout(seen, n, o.look).Outbound?
    && !Sendout(seen, n, o.look).LookupError?
  }

  lemma ConcludedMeans(did: seq<Act>, m: nat, o: Outcomes, retry: nat, err: HandlerError)
    requires Concluded(did, m, o, retry, err)
    ensures |did| > 0
    ensures forall i :: 0 <= i < |did| ==>
              && (Records(did[i]) <==> o.post.Accepted?)
              && (Fails(did[i]) <==> Refuses(o.post, retry))
              && (did[i].Leave? <==> o.post.Transient? && retry < 5)
    ensures o.post.Accepted? ==> did[0].Send? && did[0].p.MarkDelivered?
    ensures Refuses(o.post, retry) ==> did[0].p.MarkFailed? && err.NoError?
    ensures o.post.Accepted? ==> (err.NoError? <==> Send(m, Announce(o.announced)) in did) && !err.RequeueError?
  {
    if o.post.Accepted? {
      RecordedMeans(did, m, o, err);
    }
  }

  lemma RecordedMeans(did: seq<Act>, m: nat, o: Outcomes, err: HandlerError)
    requires Recorded(did, m, o, err)
    ensures |did| > 0 && did[0].Send? && did[0].p.MarkDelivered? && !err.RequeueError?
    ensures forall i :: 0 <= i < |did| ==> Records(did[i])
    ensures err.NoError? <==> Send(m, Announce(o.announced)) in did
  {
    var last := |did| - 1;
    assert did == did[..last] + [did[last]];
  }

  /** The first acts of a handling that posts, and what follows the answer. */
  lemma PostedMeans(
    did: seq<Act>, m: nat, n: nat, seen: Row, o: Outcomes, retry: nat, err: HandlerError, posted: Option<Envelope>)
    requires Handled(did, m, n, seen, o, retry, err, posted) && posted.Some?
    ensures Ready(seen, n, o) && o.admitted && Sendout(seen, n, o.look) == Outbound(posted.value)
    ensures |did| > 6 && did[4] == Send(m, BeginPost) && did[5] == Send(m, EndPost(o.post))
    ensures forall i :: 0 <= i < 4 ==> did[i].Take?
    ensures Concluded(did[6..], m, o, retry, err)
  {
    var sending := did[1..][1..];
    assert sending[4..] == did[6..];
    assert forall i :: 0 <= i < 4 ==> sending[i] == did[i + 2];
    ConcludedMeans(did[6..], m, o, retry, err);
  }

  /** Without a post there is only what came before it, or the recording of a build failure. */
  lemma UnpostedMeans(
    did: seq<Act>, m: nat, n: nat, seen: Row, o: Outcomes, retry: nat, err: HandlerError, posted: Option<Envelope>)
    requires Handled(did, m, n, seen, o, retry, err, posted) && posted.None?
    ensures forall i :: 0 <= i < |did| ==> did[i].Take? || Fails(did[i])
    ensures (exists i :: 0 <= i < |did| && did[i].Send? && did[i].p.MarkFailed?) <==> Unbuildable(seen, n, o)
    ensures err.RequeueError? <==> Ready(seen, n, o) && !o.admitted
    ensures err.OtherError? <==>
              !o.db(0).Fine? || (!Terminal(seen.status) && Sendout(seen, n, o.look).LookupError?)
  {
    if Unbuildable(seen, n, o) {
      assert did[1..][1..][0] == did[2];
      assert did[1..][1..][1] == did[3];
    } else if Ready(seen, n, o) {
      assert forall i :: 0 <= i < |did| - 1 ==> did[1..][i] == did[i + 1];
      var sending := did[1..][1..];
      assert forall i :: 0 <= i < |sending| ==> sending[i] == did[i + 2];
    } else if |did| > 1 {
      assert did[1] == did[1..][0];
    }
  }

  lemma PostedActs(
    did: seq<Act>, m: nat, n: nat, seen: Row, o: Outcomes, retry: nat, err: HandlerError, posted: Option<Envelope>)
    requires Handled(did, m, n, seen, o, retry, err, posted) && posted.Some?
    ensures Ready(seen, n, o) && o.admitted
    ensures |did| > 6 && did[4] == Send(m, BeginPost) && did[5] == Send(m, EndPost(o.post))
    ensures forall i :: 0 <= i < 4 ==> did[i].Take?
    ensures forall i :: 6 <= i < |did| ==>
              && (Records(did[i]) <==> o.post.Accepted?) && (Fails(did[i]) <==> Refuses(o.post, retry))
              && (did[i].Leave? <==> o.post.Transient? && retry < 5)
    ensures Refuses(o.post, retry) ==> did[6].Send? && did[6].p.MarkFailed?
  {
    PostedMeans(did, m, n, seen, o, retry, err, posted);
    ConcludedMeans(did[6..], m, o, retry, err);
    forall i | 6 <= i < |did| ensures did[i] == did[6..][i - 6] {
    }
  }

  /** Which results lead where: one request is posted only when the row was unfinished, the message
      built, and the limiter let it pass; its answer alone decides whether the delivery is recorded, the row
      failed, or the message backed off and retried; without a post the row is failed exactly when the
      message can never be built. */
  lemma HandledMeans(
    did: seq<Act>, m: nat, n: nat, seen: Row, o: Outcomes, retry: nat, err: HandlerError, posted: Option<Envelope>)
    requires Handled(did, m, n, seen, o, retry, err, posted)
    ensures posted.Some? ==> Ready(seen, n, o) && o.admitted
    ensures forall i :: 0 <= i < |did| && did[i].Send? && did[i].p.BeginPost? ==> posted.Some? && i == 4
    ensures forall i :: 0 <= i < |did| && did[i].Send? && did[i].p.EndPost? ==> posted.Some? && i == 5
    ensures posted.Some? ==> |did| > 6 && did[4] == Send(m, BeginPost) && did[5] == Send(m, EndPost(o.post))
    ensures (exists i :: 0 <= i < |did| && Records(did[i])) <==> posted.Some? && o.post.Accepted?
    ensures (exists i :: 0 <= i < |did| && did[i].Send? && did[i].p.MarkFailed?)
            <==> Unbuildable(seen, n, o) || (posted.Some? && Refuses(o.post, retry))
    ensures (exists i :: 0 <= i < |did| && did[i].Leave?) <==> posted.Some? && o.post.Transient? && retry < 5
  {
    if posted.Some? {
      PostedActs(did, m, n, seen, o, retry, err, posted);
      assert o.post.Accepted? ==> Records(did[6]);
      assert Refuses(o.post, retry) ==> did[6].Send? && did[6].p.MarkFailed?;
      assert o.post.Transient? && retry < 5 ==> did[6].Leave?;
    } else {
      UnpostedMeans(did, m, n, seen, o, retry, err, posted);
    }
  }

  /** What the handler then asks the consumer loop to do with the message. */
  lemma HandledReturns(
    did: seq<Act>, m: nat, n: nat, seen: Row, o: Outcomes, retry: nat, err: HandlerError, posted: Option<Envelope>)
    requires Handled(did, m, n, seen, o, retry, err, posted)
    ensures posted.None? ==> (err.RequeueError? <==> Ready(seen, n, o) && !o.admitted)
    ensures posted.None? ==>
              (err.OtherError? <==>
                !o.db(0).Fine? || (!Terminal(seen.status) && Sendout(seen, n, o.look).LookupError?))
    ensures posted.Some? && o.post.Accepted? ==>
              !err.RequeueError? && (err.NoError? <==> Send(m, Announce(o.announced)) in did)
    ensures posted.Some? && Refuses(o.post, retry) ==> err.NoError?
    ensures posted.Some? && o.post.Transient? && retry < 5 ==>
              (err.NoError? <==> o.wait.Elapsed? && o.republished) && !err.OtherError?
  {
    if posted.Some? {
      PostedMeans(did, m, n, seen, o, retry, err, posted);
      ConcludedMeans(did[6..], m, o, retry, err);
      assert did == did[..6] + did[6..];
      assert forall i :: 0 <= i < 6 ==> did[..6][i] == did[i];
    } else {
      UnpostedMeans(did, m, n, seen, o, retry, err, posted);
    }
  }

  // Putting the parts together.

  lemma RetriedIs(m: nat, o: Outcomes, ended: Db)
    requires EndsAs(ended, o.db(4))
    ensures o.wait.Shutdown? ==> Retried([Leave(m, Wait(o.wait))] + [Leave(m, Release(ended))], m, o, RequeueError)
    ensures
      var first := [Leave(m, Wait(o.wait))] + [Leave(m, Republish(o.republished))];
      && (o.wait.Elapsed? && o.republished ==> Retried(first, m, o, NoError))
      && (o.wait.Elapsed? && !o.republished ==> Retried(first + [Leave(m, Release(ended))], m, o, RequeueError))
  {
  }

  lemma RecordedIs(did: seq<Act>, m: nat, o: Outcomes)
    requires Attempts(did, m, o) && |did| > 0
    ensures Recorded(did + [Send(m, Announce(o.announced))], m, o, NoError)
  {
    assert (did + [Send(m, Announce(o.announced))])[..|did|] == did;
  }

  lemma SentIs(m: nat, o: Outcomes, retry: nat, ended: Db, err: HandlerError, more: seq<Act>)
    requires o.admitted && EndsAs(ended, o.db(2)) && Concluded(more, m, o, retry, err)
    ensures
      var first := [Take(m, Limit(o.admitted))] + [Take(m, MarkSending(ended))];
      LimitedAndSent(first + [Send(m, BeginPost), Send(m, EndPost(o.post))] + more, m, o, retry, err, true)
  {
    var first := [Take(m, Limit(o.admitted))] + [Take(m, MarkSending(ended))];
    var did := first + [Send(m, BeginPost), Send(m, EndPost(o.post))] + more;
    assert did[4..] == more;
  }

  lemma ProcessedIs(
    m: nat, built: Built, o: Outcomes, retry: nat, err: HandlerError, posted: Option<Envelope>, more: seq<Act>)
    requires built.Outbound? ==>
               LimitedAndSent(more, m, o, retry, err, posted.Some?) && (posted.Some? ==> posted.value == built.env)
    requires ResultOf(built).BuildPermanent? ==> Failures(more, m, o.db(1)) && err.NoError? && posted.None?
    requires built.LookupError? ==> more == [] && err.OtherError? && posted.None?
    ensures Processed([Take(m, Build(ResultOf(built)))] + more, m, built, o, retry, err, posted)
  {
    assert ([Take(m, Build(ResultOf(built)))] + more)[1..] == more;
  }

  lemma HandledIs(
    m: nat, n: nat, seen: Row, o: Outcomes, retry: nat, err: HandlerError, posted: Option<Envelope>, more: seq<Act>)
    requires o.db(0).Fine? && !Terminal(seen.status)
    requires Processed(more, m, Sendout(seen, n, o.look), o, retry, err, posted)
    ensures Handled([Take(m, Read(o.db(0)))] + more, m, n, seen, o, retry, err, posted)
  {
    assert ([Take(m, Read(o.db(0)))] + more)[1..] == more;
  }

  /** The row as the handler's own read found it. */
  ghost predicate ReadInRun(states: seq<State>, steps: seq<Step>, lo: nat, n: nat, m: nat, db: Db, seen: Row) {
    exists i :: lo <= i < |steps| && i < |states| && steps[i] == Do(n, Take(m, Read(db)))
                && n in states[i].cells && seen == states[i].cells[n].row
  }

  /** The whole handler.  Whatever the calls return and whatever happens in between, the steps it
      takes are steps of the protocol and carry the results of the calls, its return value is the
      verdict the protocol expects, and what it posts is what is built from the row. */
  method HandleDelivery(w: World, n: nat, m: nat, o: Outcomes, retry: nat)
    returns (err: HandlerError, posted: Option<Envelope>, ghost did: seq<Act>, ghost seen: Row)
    requires w.Valid() && At(w.s, n, m, Reading, retry)
    requires o.wait.Elapsed? ==> o.wait.jitter < JITTER
    modifies w
    ensures w.Valid() && w.Since(old(w.states), old(w.steps)) && At(w.s, n, m, Done(VerdictOf(err)), retry)
    ensures Logs(old(w.steps), w.steps, n, m, did) && Handled(did, m, n, seen, o, retry, err, posted)
    ensures ReadInRun(w.states, w.steps, |old(w.steps)|, n, m, o.db(0), seen)
    ensures posted.Some? ==> Sendout(w.s.cells[n].row, n, o.look) == Outbound(posted.value)
    ensures posted.Some? && o.post.Accepted? && err.NoError? ==> RecordedAs(w.s, n, o.post.mid)
  {
    var row, found := GetByID(w, n, m, o.db(0), o.plan(0), retry);
    seen, did, posted := row, [Take(m, Read(o.db(0)))], None;
    if !found {
      return OtherError, None, did, seen;
    }
    if row.status.Cancelled? || row.status.Delivered? {
      return NoError, None, did, seen;
    }
    if !row.status.Pending? && !row.status.Queued? && !row.status.Sending? {
      return NoError, None, did, seen;
    }
    ghost var states1, steps1 := w.states, w.steps;
    ghost var more;
    err, posted, more := Process(w, n, m, row, o, retry);
    LogsJoin(old(w.steps), steps1, w.steps, n, m, did, more);
    HandledIs(m, n, seen, o, retry, err, posted, more);
    did := did + more;
    KeepRead(states1, steps1, w.states, w.steps, |old(w.steps)|, n, m, o.db(0), seen);
    BuiltOnce(states1, steps1, w.states, w.steps, n, o.look);
  }

  lemma BuiltOnce(states1: seq<State>, steps1: seq<Step>, states: seq<State>, steps: seq<Step>, n: nat, look: Lookup)
    requires Run(states, steps) && states1 <= states && |states1| == |steps1| + 1 && steps1 <= steps
    requires n in states1[|steps1|].cells
    ensures n in states[|steps|].cells
    ensures Sendout(states1[|steps1|].cells[n].row, n, look) == Sendout(states[|steps|].cells[n].row, n, look)
  {
    BuildStable(states, steps, |steps1|, |steps|, n, look);
  }

  lemma KeepRead(
    states1: seq<State>, steps1: seq<Step>, states: seq<State>, steps: seq<Step>,
    lo: nat, n: nat, m: nat, db: Db, seen: Row)
    requires states1 <= states && steps1 <= steps && ReadInRun(states1, steps1, lo, n, m, db, seen)
    ensures ReadInRun(states, steps, lo, n, m, db, seen)
  {
    var i :| lo <= i < |steps1| && i < |states1| && steps1[i] == Do(n, Take(m, Read(db)))
             && n in states1[i].cells && seen == states1[i].cells[n].row;
    assert steps[i] == steps1[i];
  }

  /** The part of the handler for a row that is not finished. */
  method Process(w: World, n: nat, m: nat, row: Row, o: Outcomes, retry: nat)
    returns (err: HandlerError, posted: Option<Envelope>, ghost did: seq<Act>)
    requires w.Valid() && At(w.s, n, m, Building, retry)
    requires o.wait.Elapsed? ==> o.wait.jitter < JITTER
    modifies w
    ensures w.Valid() && w.Since(old(w.states), old(w.steps)) && At(w.s, n, m, Done(VerdictOf(err)), retry)
    ensures Logs(old(w.steps), w.steps, n, m, did)
    ensures Processed(did, m, Sendout(row, n, o.look), o, retry, err, posted)
    ensures posted.Some? && o.post.Accepted? && err.NoError? ==> RecordedAs(w.s, n, o.post.mid)
  {
    posted := None;
    var built := Sendout(row, n, o.look);
    BuildOutboundEnvelope(w, n, m, ResultOf(built), o.plan(1), retry);
    ghost var steps1, more := w.steps, [];
    did := [Take(m, Build(ResultOf(built)))];
    if built.Outbound? {
      var sent;
      err, sent, more := LimitAndSend(w, n, m, o, retry);
      posted := if sent then Some(built.env) else None;
    } else if ResultOf(built).BuildPermanent? {
      more := FailAndEmit(w, n, m, false, o.db(1), o.plan(2), o.plan(3), retry);
      err := NoError;
    } else {
      err := OtherError;
    }
    LogsJoin(old(w.steps), steps1, w.steps, n, m, did, more);
    ProcessedIs(m, built, o, retry, err, posted, more);
    did := did + more;
  }

  /** Limiter, claim, post, and what follows the answer. */
  method LimitAndSend(w: World, n: nat, m: nat, o: Outcomes, retry: nat)
    returns (err: HandlerError, sent: bool, ghost did: seq<Act>)
    requires w.Valid() && At(w.s, n, m, Limiting, retry)
    requires o.wait.Elapsed? ==> o.wait.jitter < JITTER
    modifies w
    ensures w.Valid() && w.Since(old(w.states), old(w.steps)) && At(w.s, n, m, Done(VerdictOf(err)), retry)
    ensures Logs(old(w.steps), w.steps, n, m, did) && LimitedAndSent(did, m, o, retry, err, sent)
    ensures sent && o.post.Accepted? && err.NoError? ==> RecordedAs(w.s, n, o.post.mid)
  {
    LimiterWait(w, n, m, o.admitted, o.plan(4), retry);
    if !o.admitted {
      return RequeueError, false, [Take(m, Limit(o.admitted))];
    }
    err, sent, did := ClaimAndSend(w, n, m, o, retry, old(w.steps));
  }

  method ClaimAndSend(w: World, n: nat, m: nat, o: Outcomes, retry: nat, ghost before: seq<Step>)
    returns (err: HandlerError, sent: bool, ghost did: seq<Act>)
    requires w.Valid() && At(w.s, n, m, Claiming, retry)
    requires o.admitted && Logs(before, w.steps, n, m, [Take(m, Limit(o.admitted))])
    requires o.wait.Elapsed? ==> o.wait.jitter < JITTER
    modifies w
    ensures w.Valid() && w.Since(old(w.states), old(w.steps)) && At(w.s, n, m, Done(VerdictOf(err)), retry)
    ensures Logs(before, w.steps, n, m, did) && LimitedAndSent(did, m, o, retry, err, sent)
    ensures sent && o.post.Accepted? && err.NoError? ==> RecordedAs(w.s, n, o.post.mid)
  {
    var claimed;
    ghost var ended;
    claimed, ended := TryMarkSending(w, n, m, o.db(2), o.plan(5), retry);
    did := [Take(m, Limit(o.admitted))];
    LogsJoin(before, old(w.steps), w.steps, n, m, did, [Take(m, MarkSending(ended))]);
    did := did + [Take(m, MarkSending(ended))];
    if !claimed {
      return NoError, false, did;
    }
    ghost var more;
    err, more := PostAndConclude(w, n, m, o, retry, before, did);
    SentIs(m, o, retry, ended, err, more);
    did := did + [Send(m, BeginPost), Send(m, EndPost(o.post))] + more;
    sent := true;
  }

  method PostAndConclude(
    w: World, n: nat, m: nat, o: Outcomes, retry: nat, ghost before: seq<Step>, ghost first: seq<Act>)
    returns (err: HandlerError, ghost more: seq<Act>)
    requires w.Valid() && At(w.s, n, m, Sendable, retry) && Logs(before, w.steps, n, m, first)
    requires o.wait.Elapsed? ==> o.wait.jitter < JITTER
    modifies w
    ensures w.Valid() && w.Since(old(w.states), old(w.steps)) && At(w.s, n, m, Done(VerdictOf(err)), retry)
    ensures Logs(before, w.steps, n, m, first + [Send(m, BeginPost), Send(m, EndPost(o.post))] + more)
    ensures Concluded(more, m, o, retry, err)
    ensures o.post.Accepted? && err.NoError? ==> RecordedAs(w.s, n, o.post.mid)
  {
    ghost var post := [Send(m, BeginPost), Send(m, EndPost(o.post))];
    Post(w, n, m, o.post, o.plan(6), o.plan(7), retry);
    LogsJoin(before, old(w.steps), w.steps, n, m, first, post);
    ghost var steps1 := w.steps;
    err, more := Conclude(w, n, m, o, retry);
    LogsJoin(before, steps1, w.steps, n, m, first + post, more);
  }

  /** What follows the webhook's answer. */
  method Conclude(w: World, n: nat, m: nat, o: Outcomes, retry: nat) returns (err: HandlerError, ghost did: seq<Act>)
    requires w.Valid() && At(w.s, n, m, AfterPost(o.post, retry), retry)
    requires o.wait.Elapsed? ==> o.wait.jitter < JITTER
    modifies w
    ensures w.Valid() && w.Since(old(w.states), old(w.steps)) && At(w.s, n, m, Done(VerdictOf(err)), retry)
    ensures Logs(old(w.steps), w.steps, n, m, did) && Concluded(did, m, o, retry, err)
    ensures o.post.Accepted? && err.NoError? ==> RecordedAs(w.s, n, o.post.mid)
  {
    if o.post.Accepted? {
      err, did := Record(w, n, m, o.post.mid, o, retry);
      return;
    }
    if o.post.Permanent? || !o.post.Transient? || retry >= MAX_WEBHOOK_RETRIES {
      did := FailAndEmit(w, n, m, true, o.db(3), o.plan(9), o.plan(10), retry);
      return NoError, did;
    }
    err, did := Retry(w, n, m, o, retry);
  }

  /** Record the delivery, then announce it. */
  method Record(w: World, n: nat, m: nat, mid: Option<string>, o: Outcomes, ghost retry: nat)
    returns (err: HandlerError, ghost did: seq<Act>)
    requires w.Valid() && At(w.s, n, m, Marking(mid, 0), retry)
    modifies w
    ensures w.Valid() && w.Since(old(w.states), old(w.steps)) && At(w.s, n, m, Done(VerdictOf(err)), retry)
    ensures Logs(old(w.steps), w.steps, n, m, did) && Recorded(did, m, o, err)
    ensures err.NoError? ==> RecordedAs(w.s, n, mid)
  {
    var marked;
    marked, did := MarkDeliveredWithRetry(w, n, m, mid, o, retry);
    if !marked {
      return OtherError, did;
    }
    ghost var steps1 := w.steps;
    EmitDelivered(w, n, m, o.announced, o.plan(8), retry);
    LogsJoin(old(w.steps), steps1, w.steps, n, m, did, [Send(m, Announce(o.announced))]);
    RecordedIs(did, m, o);
    StaysRecorded(w.states, w.steps, |steps1|, n, mid);
    return NoError, did + [Send(m, Announce(o.announced))];
  }

  lemma StaysRecorded(states: seq<State>, steps: seq<Step>, i: nat, n: nat, mid: Option<string>)
    requires Run(states, steps) && i < |states| && RecordedAs(states[i], n, mid)
    ensures RecordedAs(states[|steps|], n, mid)
  {
    Theorems.StatusMachine(states, steps, i, |steps|, n);
  }

  /** Backoff, then republish or release. */
  method Retry(w: World, n: nat, m: nat, o: Outcomes, ghost retry: nat) returns (err: HandlerError, ghost did: seq<Act>)
    requires w.Valid() && At(w.s, n, m, Waiting, retry)
    requires o.wait.Elapsed? ==> o.wait.jitter < JITTER
    modifies w
    ensures w.Valid() && w.Since(old(w.states), old(w.steps)) && At(w.s, n, m, Done(VerdictOf(err)), retry)
    ensures Logs(old(w.steps), w.steps, n, m, did) && Retried(did, m, o, err)
  {
    BackOff(w, n, m, o.wait, o.plan(11), retry);
    ghost var steps1, ended := w.steps, Db.Fine;
    did := [Leave(m, Wait(o.wait))];
    if o.wait.Shutdown? {
      err, ended := RevertSendingAndRequeue(w, n, m, o.db(4), o.plan(12), retry);
      LogsJoin(old(w.steps), steps1, w.steps, n, m, did, [Leave(m, Release(ended))]);
      RetriedIs(m, o, ended);
      did := did + [Leave(m, Release(ended))];
      return;
    }
    err, did := RepublishOrRelease(w, n, m, o, retry, old(w.steps));
  }

  method RepublishOrRelease(w: World, n: nat, m: nat, o: Outcomes, ghost retry: nat, ghost before: seq<Step>)
    returns (err: HandlerError, ghost did: seq<Act>)
    requires w.Valid() && At(w.s, n, m, Republishing, retry) && o.wait.Elapsed?
    requires Logs(before, w.steps, n, m, [Leave(m, Wait(o.wait))])
    modifies w
    ensures w.Valid() && w.Since(old(w.states), old(w.steps)) && At(w.s, n, m, Done(VerdictOf(err)), retry)
    ensures Logs(before, w.steps, n, m, did) && Retried(did, m, o, err)
  {
    RepublishDelivery(w, n, m, o.republished, o.plan(13), retry);
    did := [Leave(m, Wait(o.wait))];
    LogsJoin(before, old(w.steps), w.steps, n, m, did, [Leave(m, Republish(o.republished))]);
    did := did + [Leave(m, Republish(o.republished))];
    if o.republished {
      RetriedIs(m, o, o.db(4));
      return NoError, did;
    }
    ghost var steps1, ended := w.steps, Db.Fine;
    err, ended := RevertSendingAndRequeue(w, n, m, o.db(4), o.plan(14), retry);
    LogsJoin(before, steps1, w.steps, n, m, did, [Leave(m, Release(ended))]);
    RetriedIs(m, o, ended);
    did := did + [Leave(m, Release(ended))];
  }

  /** One turn of the consumer loop: take a queued message, handle it, then ack it, or nack it with
      requeue exactly when the handler asked for that. */
  method ConsumeOne(w: World, n: nat, m: nat, o: Outcomes)
    returns (err: HandlerError, posted: Option<Envelope>, ghost did: seq<Act>, ghost seen: Row)
    requires w.Valid() && n in w.s.cells && m in w.s.cells[n].msgs && w.s.cells[n].msgs[m].loc.InQueue?
    requires o.wait.Elapsed? ==> o.wait.jitter < JITTER
    modifies w
    ensures w.Valid() && w.Since(old(w.states), old(w.steps)) && n in w.s.cells
    ensures Logs(old(w.steps), w.steps, n, m, [Take(m, Deliver)] + did + [Leave(m, Settle)])
    ensures Handled(did, m, n, seen, o, old(w.s.cells[n].msgs[m].retry), err, posted)
    ensures ReadInRun(w.states, w.steps, |old(w.steps)|, n, m, o.db(0), seen)
    ensures posted.Some? ==> Sendout(w.s.cells[n].row, n, o.look) == Outbound(posted.value)
    ensures posted.Some? && o.post.Accepted? && err.NoError? ==> RecordedAs(w.s, n, o.post.mid)
    ensures err.NoError? ==> m !in w.s.cells[n].msgs
    ensures !err.NoError? ==>
              m in w.s.cells[n].msgs
              && w.s.cells[n].msgs[m].loc == (if err.RequeueError? then InQueue else Dead)
              && w.s.cells[n].msgs[m].retry == old(w.s.cells[n].msgs[m].retry)
  {
    var retry := w.s.cells[n].msgs[m].retry;
    TakeDelivery(w, n, m, retry);
    ghost var steps0 := w.steps;
    err, posted, did, seen := HandleDelivery(w, n, m, o, retry);
    ghost var states1, steps1 := w.states, w.steps;
    LogsJoin(old(w.steps), steps0, w.steps, n, m, [Take(m, Deliver)], did);
    SettleDelivery(w, n, m, err, retry);
    LogsJoin(old(w.steps), steps1, w.steps, n, m, [Take(m, Deliver)] + did, [Leave(m, Settle)]);
    KeepRead(states1, steps1, w.states, w.steps, |steps0|, n, m, o.db(0), seen);
    BuiltOnce(states1, steps1, w.states, w.steps, n, o.look);
    if posted.Some? && o.post.Accepted? && err.NoError? {
      StaysRecorded(w.states, w.steps, |steps1|, n, o.post.mid);
    }
  }

  /** Ack, or nack with or without requeue. */
  method SettleDelivery(w: World, n: nat, m: nat, err: HandlerError, ghost retry: nat)
    requires w.Valid() && At(w.s, n, m, Done(VerdictOf(err)), retry)
    modifies w
    ensures w.Valid() && w.Since(old(w.states), old(w.steps)) && n in w.s.cells
    ensures Logs(old(w.steps), w.steps, n, m, [Leave(m, Settle)])
    ensures err.NoError? ==> m !in w.s.cells[n].msgs
    ensures !err.NoError? ==>
              m in w.s.cells[n].msgs && w.s.cells[n].msgs[m].retry == retry
              && w.s.cells[n].msgs[m].loc == (if err.RequeueError? then InQueue else Dead)
  {
    w.Perform(Do(n, Leave(m, Settle)));
    LastLogged(old(w.steps), w.steps, Handler(n, m));
  }

  method TakeDelivery(w: World, n: nat, m: nat, ghost retry: nat)
    requires w.Valid() && n in w.s.cells && m in w.s.cells[n].msgs && w.s.cells[n].msgs[m].loc.InQueue?
    requires w.s.cells[n].msgs[m].retry == retry
    modifies w
    ensures w.Valid() && w.Since(old(w.states), old(w.steps)) && At(w.s, n, m, Reading, retry)
    ensures Logs(old(w.steps), w.steps, n, m, [Take(m, Deliver)])
  {
    w.Perform(Do(n, Take(m, Deliver)));
    LastLogged(old(w.steps), w.steps, Handler(n, m));
  }
}
