/** The three publishers: the API's post-commit loop, the outbox relay and the scheduler. */
module Publishers {
  import opened Domain
  import opened Protocol
  import opened Runs
  import opened Safety
  import opened Processes
  import opened Worker
  import opened Theorems

  /** How the calls made for one row turn out, and what everything else does meanwhile. */
  datatype Calls = Calls(plan: nat -> seq<Step>, db: nat -> Db, published: bool)

  ghost predicate TaskIs(s: State, n: nat, t: Task) {
    n in s.cells && s.cells[n].task == t
  }

  /** Rows of the request other than n keep their place in the loop. */
  ghost predicate OthersWait(s: State, s': State, ids: set<nat>, n: nat) {
    forall k :: k in ids && k != n && k in s.cells ==> k in s'.cells && s'.cells[k].task == s.cells[k].task
  }

  /** This step is the API's MarkQueued for k reporting success. */
  ghost predicate Queues(s: State, step: Step, k: nat) {
    step.Do? && step.n == k && k in s.cells && step.act.Api? && step.act.t.MarkTask?
    && Reported(ToQueued, s.cells[k].row, step.act.t.db)
  }

  ghost predicate QueuedSince(states: seq<State>, steps: seq<Step>, lo: nat, k: nat) {
    exists i :: lo <= i < |steps| && i < |states| && Queues(states[i], steps[i], k)
  }

  /** Of these rows, exactly those in `marked` were reported queued by their request since `lo`. */
  ghost predicate Marked(states: seq<State>, steps: seq<Step>, lo: nat, ids: set<nat>, marked: set<nat>) {
    forall k :: k in ids ==> (QueuedSince(states, steps, lo, k) <==> k in marked)
  }

  /** Nothing marked by the others, and then one step of the request itself. */
  lemma MarkedByLast(states: seq<State>, steps: seq<Step>, lo: nat, ids: set<nat>, n: nat, ok: bool)
    requires |states| == |steps| + 1 && lo < |steps| && n in ids && steps[|steps| - 1].Do? && steps[|steps| - 1].n == n
    requires forall i :: lo <= i < |steps| - 1 ==> !Mine(Creator(ids), steps[i])
    requires ok == Queues(states[|steps| - 1], steps[|steps| - 1], n)
    ensures Marked(states, steps, lo, ids, if ok then {n} else {})
  {
    forall k | k in ids ensures QueuedSince(states, steps, lo, k) <==> k in (if ok then {n} else {}) {
      if QueuedSince(states, steps, lo, k) {
        var i :| lo <= i < |steps| && i < |states| && Queues(states[i], steps[i], k);
        assert i == |steps| - 1;
      }
    }
  }

  lemma MarkedJoin(
    states1: seq<State>, steps1: seq<Step>, states: seq<State>, steps: seq<Step>,
    lo: nat, ids: set<nat>, a: set<nat>, b: set<nat>)
    requires |states1| == |steps1| + 1 && states1 <= states && steps1 <= steps && lo <= |steps1|
    requires |states| == |steps| + 1
    requires Marked(states1, steps1, lo, ids, a) && Marked(states, steps, |steps1|, ids, b)
    ensures Marked(states, steps, lo, ids, a + b)
  {
    forall k | k in ids ensures QueuedSince(states, steps, lo, k) <==> k in a + b {
      if QueuedSince(states1, steps1, lo, k) {
        var i :| lo <= i < |steps1| && i < |states1| && Queues(states1[i], steps1[i], k);
        assert Queues(states[i], steps[i], k);
      }
      if QueuedSince(states, steps, |steps1|, k) {
        var i :| |steps1| <= i < |steps| && i < |states| && Queues(states[i], steps[i], k);
        assert lo <= i;
      }
      if QueuedSince(states, steps, lo, k) {
        var i :| lo <= i < |steps| && i < |states| && Queues(states[i], steps[i], k);
        if i < |steps1| {
          assert Queues(states1[i], steps1[i], k);
        }
      }
    }
  }

  /** In the steps after `before` the request did exactly this for row n, and nothing for its others. */
  ghost predicate Works(before: seq<Step>, steps: seq<Step>, ids: set<nat>, n: nat, did: seq<Act>) {
    && Log(steps, Creator({n})) == Log(before, Creator({n})) + did
    && forall k :: k in ids && k != n ==> Log(steps, Creator({k})) == Log(before, Creator({k}))
  }

  lemma LastWork(before: seq<Step>, steps: seq<Step>, ids: set<nat>, n: nat, t: TaskAct)
    requires before <= steps && |before| < |steps| && n in ids && steps[|steps| - 1] == Do(n, Api(t))
    requires forall i :: |before| <= i < |steps| - 1 ==> !Mine(Creator(ids), steps[i])
    ensures Works(before, steps, ids, n, [Api(t)])
  {
    forall k | k in ids
      ensures Log(steps, Creator({k})) == Log(before, Creator({k})) + if k == n then [Api(t)] else []
    {
      LastLogged(before, steps, Creator({k}));
    }
  }

  lemma WorkJoin(s0: seq<Step>, s1: seq<Step>, s2: seq<Step>, ids: set<nat>, n: nat, a: seq<Act>, b: seq<Act>)
    requires Works(s0, s1, ids, n, a) && Works(s1, s2, ids, n, b)
    ensures Works(s0, s2, ids, n, a + b)
  {
    var log := Log(s0, Creator({n}));
    assert (log + a) + b == log + (a + b);
  }

  /** MarkQueued until it is reported, at most five times. */
  ghost predicate QueueAttempts(did: seq<Act>, calls: Calls, queued: bool) {
    && 1 <= |did| <= 5 && (!queued ==> |did| == 5)
    && forall i :: 0 <= i < |did| ==> did[i].Api? && did[i].t.MarkTask? && EndsAs(did[i].t.db, calls.db(10 + i))
  }

  /** One publish; then MarkQueued when the broker took the message, and an outbox entry when not. */
  ghost predicate HandedOver(did: seq<Act>, calls: Calls, queued: bool) {
    |did| > 0 && did[0] == Api(TryPublish(calls.published)) &&
    if calls.published then QueueAttempts(did[1..], calls, queued)
    else !queued && |did| == 2 && did[1].Api? && did[1].t.Enqueue? && did[1].t.db == calls.db(1)
  }

  /** All the request does for one of its new rows: read it again, and hand it over if it was found
      and is not scheduled for later. */
  ghost predicate PublishedOrLeft(did: seq<Act>, due: bool, calls: Calls, queued: bool) {
    |did| > 0 && did[0] == Api(ReadBack(calls.db(0))) &&
    if calls.db(0).Fine? && due then HandedOver(did[1..], calls, queued) else |did| == 1 && !queued
  }

  method ReadRow(w: World, ids: set<nat>, n: nat, at: int, db: Db, plan: seq<Step>) returns (row: Row, ok: bool)
    requires w.Valid() && n in ids && TaskIs(w.s, n, ToRead(at))
    modifies w
    ensures w.Valid() && w.Since(old(w.states), old(w.steps)) && ok == db.Fine? && OthersWait(old(w.s), w.s, ids, n)
    ensures Marked(w.states, w.steps, |old(w.steps)|, ids, {})
    ensures Works(old(w.steps), w.steps, ids, n, [Api(ReadBack(db))])
    ensures n in old(w.s).cells && row.scheduledAt == old(w.s).cells[n].row.scheduledAt
    ensures TaskIs(w.s, n, if !ok || !DueBy(row, at) then NoTask else ToPublish) && row == w.s.cells[n].row
  {
    w.Others(Creator(ids), plan);
    row, ok := w.s.cells[n].row, db.Fine?;
    w.Perform(Do(n, Api(ReadBack(db))));
    StatusMachine(w.states, w.steps, |old(w.steps)|, |w.steps|, n);
    LastWork(old(w.steps), w.steps, ids, n, ReadBack(db));
    MarkedByLast(w.states, w.steps, |old(w.steps)|, ids, n, false);
  }

  method PublishNotification(w: World, ids: set<nat>, n: nat, ok: bool, plan: seq<Step>) returns (copy: nat)
    requires w.Valid() && n in ids && TaskIs(w.s, n, ToPublish)
    modifies w
    ensures w.Valid() && w.Since(old(w.states), old(w.steps)) && OthersWait(old(w.s), w.s, ids, n)
    ensures Marked(w.states, w.steps, |old(w.steps)|, ids, {})
    ensures Works(old(w.steps), w.steps, ids, n, [Api(TryPublish(ok))])
    ensures TaskIs(w.s, n, if ok then ToMark(copy, 0) else ToEnqueue)
    ensures ok ==> copy in w.s.cells[n].msgs && w.s.cells[n].msgs[copy] == Msg(copy, 0, InQueue)
  {
    w.Others(Creator(ids), plan);
    copy := w.s.cells[n].next;
    w.Perform(Do(n, Api(TryPublish(ok))));
    LastWork(old(w.steps), w.steps, ids, n, TryPublish(ok));
    MarkedByLast(w.states, w.steps, |old(w.steps)|, ids, n, false);
  }

  method EnqueueOutbox(w: World, ids: set<nat>, n: nat, db: Db, plan: seq<Step>) returns (ghost id: nat)
    requires w.Valid() && n in ids && TaskIs(w.s, n, ToEnqueue)
    modifies w
    ensures w.Valid() && w.Since(old(w.states), old(w.steps)) && OthersWait(old(w.s), w.s, ids, n)
    ensures Marked(w.states, w.steps, |old(w.steps)|, ids, {})
    ensures Works(old(w.steps), w.steps, ids, n, [Api(Enqueue(id, db))])
    ensures TaskIs(w.s, n, NoTask)
    ensures db.Fine? ==> id in w.s.cells[n].entries && w.s.cells[n].entries[id] == Entry(false, Idle)
  {
    w.Others(Creator(ids), plan);
    id := w.s.nextOut;
    w.FreshIds();
    w.Perform(Do(n, Api(Enqueue(w.s.nextOut, db))));
    LastWork(old(w.steps), w.steps, ids, n, Enqueue(id, db));
    MarkedByLast(w.states, w.steps, |old(w.steps)|, ids, n, false);
  }

  method TryMarkQueued(w: World, ids: set<nat>, n: nat, copy: nat, tries: nat, db: Db, plan: seq<Step>)
    returns (ok: bool, ghost ended: Db)
    requires w.Valid() && n in ids && TaskIs(w.s, n, ToMark(copy, tries))
    modifies w
    ensures w.Valid() && w.Since(old(w.states), old(w.steps)) && OthersWait(old(w.s), w.s, ids, n)
    ensures Marked(w.states, w.steps, |old(w.steps)|, ids, if ok then {n} else {})
    ensures EndsAs(ended, db) && Works(old(w.steps), w.steps, ids, n, [Api(MarkTask(ended))])
    ensures TaskIs(w.s, n, if ok || tries + 1 >= MARK_QUEUED_ATTEMPTS then NoTask else ToMark(copy, tries + 1))
    ensures ok ==> w.s.cells[n].row.status.Queued?
  {
    w.Others(Creator(ids), plan);
    var c := w.s.cells[n];
    ok, ended := Reported(ToQueued, c.row, Waited(c, db)), Waited(c, db);
    w.Perform(Do(n, Api(MarkTask(Waited(c, db)))));
    LastWork(old(w.steps), w.steps, ids, n, MarkTask(ended));
    MarkedByLast(w.states, w.steps, |old(w.steps)|, ids, n, ok);
  }

  ghost predicate AttemptsSoFar(did: seq<Act>, calls: Calls, n: nat) {
    && |did| == n
    && forall i :: 0 <= i < |did| ==> did[i].Api? && did[i].t.MarkTask? && EndsAs(did[i].t.db, calls.db(10 + i))
  }

  method MarkQueuedAgain(
    w: World, ids: set<nat>, n: nat, copy: nat, i: nat, calls: Calls,
    ghost states0: seq<State>, ghost steps0: seq<Step>, ghost did: seq<Act>)
    returns (ok: bool, ghost more: seq<Act>)
    requires w.Valid() && n in ids && TaskIs(w.s, n, ToMark(copy, i)) && w.Since(states0, steps0)
    requires Works(steps0, w.steps, ids, n, did) && AttemptsSoFar(did, calls, i)
    requires Marked(w.states, w.steps, |steps0|, ids, {})
    modifies w
    ensures w.Valid() && w.Since(states0, steps0) && OthersWait(old(w.s), w.s, ids, n)
    ensures Works(steps0, w.steps, ids, n, more) && AttemptsSoFar(more, calls, i + 1)
    ensures TaskIs(w.s, n, if ok || i + 1 >= MARK_QUEUED_ATTEMPTS then NoTask else ToMark(copy, i + 1))
    ensures Marked(w.states, w.steps, |steps0|, ids, if ok then {n} else {})
    ensures ok ==> w.s.cells[n].row.status.Queued?
  {
    ghost var ended;
    ok, ended := TryMarkQueued(w, ids, n, copy, i, calls.db(10 + i), calls.plan(10 + i));
    MarkedJoin(old(w.states), old(w.steps), w.states, w.steps, |steps0|, ids, {}, if ok then {n} else {});
    WorkJoin(steps0, old(w.steps), w.steps, ids, n, did, [Api(MarkTask(ended))]);
    more := did + [Api(MarkTask(ended))];
  }

  method MarkQueuedWithRetry(w: World, ids: set<nat>, n: nat, copy: nat, calls: Calls)
    returns (ok: bool, ghost did: seq<Act>)
    requires w.Valid() && n in ids && TaskIs(w.s, n, ToMark(copy, 0))
    modifies w
    ensures w.Valid() && w.Since(old(w.states), old(w.steps)) && OthersWait(old(w.s), w.s, ids, n)
    ensures Works(old(w.steps), w.steps, ids, n, did) && QueueAttempts(did, calls, ok)
    ensures TaskIs(w.s, n, NoTask)
    ensures Marked(w.states, w.steps, |old(w.steps)|, ids, if ok then {n} else {})
    ensures ok ==> w.s.cells[n].row.status.Queued?
  {
    var i := 0;
    ok, did := false, [];
    while i < MARK_QUEUED_ATTEMPTS
      invariant i <= MARK_QUEUED_ATTEMPTS && w.Valid() && w.Since(old(w.states), old(w.steps))
      invariant OthersWait(old(w.s), w.s, ids, n)
      invariant TaskIs(w.s, n, if i < MARK_QUEUED_ATTEMPTS then ToMark(copy, i) else NoTask)
      invariant Works(old(w.steps), w.steps, ids, n, did) && AttemptsSoFar(did, calls, i)
      invariant !ok && Marked(w.states, w.steps, |old(w.steps)|, ids, {})
    {
      ok, did := MarkQueuedAgain(w, ids, n, copy, i, calls, old(w.states), old(w.steps), did);
      if ok {
        return;
      }
      i := i + 1;
    }
  }

  /** The loop body for one newly inserted row. */
  method PublishOne(w: World, ids: set<nat>, n: nat, at: int, calls: Calls)
    returns (queued: bool, ghost did: seq<Act>)
    requires w.Valid() && n in ids && TaskIs(w.s, n, ToRead(at))
    modifies w
    ensures w.Valid() && w.Since(old(w.states), old(w.steps)) && OthersWait(old(w.s), w.s, ids, n)
    ensures Works(old(w.steps), w.steps, ids, n, did) && n in old(w.s).cells
    ensures PublishedOrLeft(did, DueBy(old(w.s).cells[n].row, at), calls, queued)
    ensures TaskIs(w.s, n, NoTask)
    ensures Marked(w.states, w.steps, |old(w.steps)|, ids, if queued then {n} else {})
    ensures queued ==> w.s.cells[n].row.status.Queued?
  {
    var row, found := ReadRow(w, ids, n, at, calls.db(0), calls.plan(0));
    did := [Api(ReadBack(calls.db(0)))];
    if !found {
      return false, did;
    }
    if row.scheduledAt.Some? && row.scheduledAt.value > at {
      return false, did;
    }
    ghost var more;
    ghost var states1, steps1 := w.states, w.steps;
    queued, more := HandOver(w, ids, n, calls);
    WorkJoin(old(w.steps), steps1, w.steps, ids, n, did, more);
    did := did + more;
    assert did[1..] == more;
    MarkedJoin(states1, steps1, w.states, w.steps, |old(w.steps)|, ids, {}, if queued then {n} else {});
  }

  /** Publish, then mark queued; or, when the broker refuses, leave it to the outbox. */
  method HandOver(w: World, ids: set<nat>, n: nat, calls: Calls)
    returns (queued: bool, ghost did: seq<Act>)
    requires w.Valid() && n in ids && TaskIs(w.s, n, ToPublish)
    modifies w
    ensures w.Valid() && w.Since(old(w.states), old(w.steps)) && OthersWait(old(w.s), w.s, ids, n)
    ensures Works(old(w.steps), w.steps, ids, n, did) && HandedOver(did, calls, queued)
    ensures TaskIs(w.s, n, NoTask)
    ensures Marked(w.states, w.steps, |old(w.steps)|, ids, if queued then {n} else {})
    ensures queued ==> w.s.cells[n].row.status.Queued?
  {
    var copy := PublishNotification(w, ids, n, calls.published, calls.plan(1));
    ghost var states1, steps1 := w.states, w.steps;
    ghost var more;
    if calls.published {
      queued, more := MarkQueuedWithRetry(w, ids, n, copy, calls);
    } else {
      ghost var id := EnqueueOutbox(w, ids, n, calls.db(1), calls.plan(2));
      queued, more := false, [Api(Enqueue(id, calls.db(1)))];
    }
    did := [Api(TryPublish(calls.published))];
    WorkJoin(old(w.steps), steps1, w.steps, ids, n, did, more);
    did := did + more;
    assert did[1..] == more;
    MarkedJoin(states1, steps1, w.states, w.steps, |old(w.steps)|, ids, {}, if queued then {n} else {});
  }

  /** One entry of the response: the row, and whether this request inserted it. */
  datatype Result = Result(id: nat, inserted: bool)

  predicate DistinctInserts(results: seq<Result>) {
    forall i, j :: 0 <= i < j < |results| && results[i].inserted && results[j].inserted ==>
      results[i].id != results[j].id
  }

  function Inserted(results: seq<Result>): set<nat> {
    set i | 0 <= i < |results| && results[i].inserted :: results[i].id
  }

  ghost predicate AllTasks(s: State, results: seq<Result>, lo: nat, hi: nat, t: Task)
    requires lo <= hi <= |results|
  {
    forall i :: lo <= i < hi && results[i].inserted ==> TaskIs(s, results[i].id, t)
  }

  lemma TasksMove(s: State, s': State, results: seq<Result>, i: nat, from: Task, to: Task)
    requires DistinctInserts(results) && i < |results| && results[i].inserted
    requires AllTasks(s, results, 0, i, to) && AllTasks(s, results, i, |results|, from)
    requires TaskIs(s', results[i].id, to) && OthersWait(s, s', Inserted(results), results[i].id)
    ensures AllTasks(s', results, 0, i + 1, to) && AllTasks(s', results, i + 1, |results|, from)
  {
    forall k | 0 <= k < |results| && results[k].inserted && k != i
      ensures results[k].id in s'.cells && s'.cells[results[k].id].task == s.cells[results[k].id].task
    {
      assert results[k].id in Inserted(results) && TaskIs(s, results[k].id, if k < i then to else from);
    }
  }

  ghost predicate SameRows(s: State, s': State) {
    forall n :: n in s'.cells ==> n in s.cells && s.cells[n].row == s'.cells[n].row
  }

  /** From result lo on, the request has done nothing for its new rows since `before`. */
  ghost predicate AllIdle(before: seq<Step>, steps: seq<Step>, results: seq<Result>, lo: nat) {
    forall i :: lo <= i < |results| && results[i].inserted ==>
      Log(steps, Creator({results[i].id})) == Log(before, Creator({results[i].id}))
  }

  /** For the new rows among the first hi results, the request has done did(i) since `before`. */
  ghost predicate AllDid(before: seq<Step>, steps: seq<Step>, results: seq<Result>, hi: nat, did: seq<seq<Act>>) {
    hi <= |results| && hi <= |did| &&
    forall i :: 0 <= i < hi && results[i].inserted ==>
      Log(steps, Creator({results[i].id})) == Log(before, Creator({results[i].id})) + did[i]
  }

  /** One more result is dealt with. */
  lemma OneMoreDid(
    before: seq<Step>, steps1: seq<Step>, steps: seq<Step>, results: seq<Result>, did: seq<seq<Act>>, more: seq<Act>)
    requires DistinctInserts(results) && |did| < |results| && results[|did|].inserted
    requires AllDid(before, steps1, results, |did|, did) && AllIdle(before, steps1, results, |did|)
    requires Works(steps1, steps, Inserted(results), results[|did|].id, more)
    ensures AllDid(before, steps, results, |did| + 1, did + [more]) && AllIdle(before, steps, results, |did| + 1)
  {
    var n := results[|did|].id;
    forall i | 0 <= i < |results| && results[i].inserted && i != |did|
      ensures Log(steps, Creator({results[i].id})) == Log(steps1, Creator({results[i].id}))
    {
      assert results[i].id in Inserted(results) && results[i].id != n;
    }
  }

  /** For the new rows among the first hi results, the request has read the clock. */
  ghost predicate Clocked(before: seq<Step>, steps: seq<Step>, results: seq<Result>, hi: nat) {
    hi <= |results| &&
    forall i :: 0 <= i < hi && results[i].inserted ==>
      Log(steps, Creator({results[i].id})) == Log(before, Creator({results[i].id})) + [Api(TakeTime)]
  }

  lemma OneMoreClocked(before: seq<Step>, steps1: seq<Step>, steps: seq<Step>, results: seq<Result>, hi: nat)
    requires DistinctInserts(results) && hi < |results| && results[hi].inserted
    requires Clocked(before, steps1, results, hi) && AllIdle(before, steps1, results, hi)
    requires Works(steps1, steps, Inserted(results), results[hi].id, [Api(TakeTime)])
    ensures Clocked(before, steps, results, hi + 1) && AllIdle(before, steps, results, hi + 1)
  {
    forall i | 0 <= i < |results| && results[i].inserted && i != hi
      ensures Log(steps, Creator({results[i].id})) == Log(steps1, Creator({results[i].id}))
    {
      assert results[i].id in Inserted(results) && results[i].id != results[hi].id;
    }
  }

  method TakeClock(w: World, ids: set<nat>, n: nat)
    requires w.Valid() && n in ids && TaskIs(w.s, n, ToClock)
    modifies w
    ensures w.Valid() && w.Since(old(w.states), old(w.steps)) && w.s.now == old(w.s).now && SameRows(old(w.s), w.s)
    ensures w.steps == old(w.steps) + [Do(n, Api(TakeTime))]
    ensures TaskIs(w.s, n, ToRead(w.s.now)) && OthersWait(old(w.s), w.s, ids, n)
    ensures Works(old(w.steps), w.steps, ids, n, [Api(TakeTime)])
  {
    w.Perform(Do(n, Api(TakeTime)));
    LastWork(old(w.steps), w.steps, ids, n, TakeTime);
  }

  method TakeNext(w: World, results: seq<Result>, i: nat, at: int, ghost steps0: seq<Step>)
    requires w.Valid() && DistinctInserts(results) && i < |results| && results[i].inserted && w.s.now == at
    requires AllTasks(w.s, results, 0, i, ToRead(at)) && AllTasks(w.s, results, i, |results|, ToClock)
    requires Clocked(steps0, w.steps, results, i) && AllIdle(steps0, w.steps, results, i)
    modifies w
    ensures w.Valid() && w.Since(old(w.states), old(w.steps)) && w.s.now == at && SameRows(old(w.s), w.s)
    ensures w.steps == old(w.steps) + [Do(results[i].id, Api(TakeTime))]
    ensures AllTasks(w.s, results, 0, i + 1, ToRead(at)) && AllTasks(w.s, results, i + 1, |results|, ToClock)
    ensures Clocked(steps0, w.steps, results, i + 1) && AllIdle(steps0, w.steps, results, i + 1)
  {
    assert TaskIs(w.s, results[i].id, ToClock);
    TakeClock(w, Inserted(results), results[i].id);
    TasksMove(old(w.s), w.s, results, i, ToClock, ToRead(at));
    OneMoreClocked(steps0, old(w.steps), w.steps, results, i);
  }

  /** The clock is read once, after the commit, for the whole request. */
  method CaptureNow(w: World, results: seq<Result>) returns (at: int)
    requires w.Valid() && DistinctInserts(results) && AllTasks(w.s, results, 0, |results|, ToClock)
    modifies w
    ensures w.Valid() && w.Since(old(w.states), old(w.steps)) && at == old(w.s).now
    ensures SameRows(old(w.s), w.s)
    ensures AllTasks(w.s, results, 0, |results|, ToRead(at))
    ensures Clocked(old(w.steps), w.steps, results, |results|)
    ensures Marked(w.states, w.steps, |old(w.steps)|, Inserted(results), {})
  {
    at := w.s.now;
    for i := 0 to |results|
      invariant w.Valid() && w.Since(old(w.states), old(w.steps)) && w.s.now == at && SameRows(old(w.s), w.s)
      invariant AllTasks(w.s, results, 0, i, ToRead(at)) && AllTasks(w.s, results, i, |results|, ToClock)
      invariant forall j :: |old(w.steps)| <= j < |w.steps| ==> w.steps[j].Do? && w.steps[j].act == Api(TakeTime)
      invariant Clocked(old(w.steps), w.steps, results, i) && AllIdle(old(w.steps), w.steps, results, i)
    {
      if results[i].inserted {
        TakeNext(w, results, i, at, old(w.steps));
      }
    }
  }

  function QueuedIds(results: seq<Result>, queued: seq<bool>): set<nat>
    requires |queued| <= |results|
  {
    set i | 0 <= i < |queued| && queued[i] :: results[i].id
  }

  lemma QueuedMore(results: seq<Result>, queued: seq<bool>, ok: bool)
    requires |queued| < |results|
    ensures QueuedIds(results, queued + [ok])
            == QueuedIds(results, queued) + (if ok then {results[|queued|].id} else {})
  {
    var more := queued + [ok];
    forall x | x in QueuedIds(results, queued) ensures x in QueuedIds(results, more) {
      var i :| 0 <= i < |queued| && queued[i] && results[i].id == x;
      assert more[i];
    }
    if ok {
      assert more[|queued|];
    }
  }

  /** What was done for the new rows is what the loop's body does, for rows due or not due at `at`. */
  ghost predicate AllHandled(
    s: State, results: seq<Result>, at: int, calls: nat -> Calls, queued: seq<bool>, did: seq<seq<Act>>)
  {
    |did| == |queued| <= |results| &&
    forall i :: 0 <= i < |did| && results[i].inserted ==>
      && results[i].id in s.cells
      && PublishedOrLeft(did[i], DueBy(s.cells[results[i].id].row, at), calls(i), queued[i])
  }

  lemma SameDue(states: seq<State>, steps: seq<Step>, i: nat, n: nat, at: int)
    requires Run(states, steps) && i < |states| && n in states[i].cells
    ensures n in states[|steps|].cells
    ensures DueBy(states[|steps|].cells[n].row, at) <==> DueBy(states[i].cells[n].row, at)
  {
    StatusMachine(states, steps, i, |steps|, n);
  }

  /** Where the loop is before result |queued|: since state s0 the earlier new rows have been dealt with,
      and the later ones not touched. */
  ghost predicate Progress(
    s: State, states: seq<State>, steps: seq<Step>, s0: State, steps0: seq<Step>, results: seq<Result>, at: int,
    calls: nat -> Calls, queued: seq<bool>, did: seq<seq<Act>>)
  {
    && |queued| <= |results|
    && AllTasks(s, results, 0, |queued|, NoTask) && AllTasks(s, results, |queued|, |results|, ToRead(at))
    && (forall j :: 0 <= j < |queued| && queued[j] ==> results[j].inserted)
    && AllDid(steps0, steps, results, |queued|, did) && AllIdle(steps0, steps, results, |queued|)
    && AllHandled(s0, results, at, calls, queued, did)
    && Marked(states, steps, |steps0|, Inserted(results), QueuedIds(results, queued))
  }

  /** The loop's body for result i, a new row. */
  method PublishNext(
    w: World, results: seq<Result>, i: nat, at: int, calls: nat -> Calls,
    ghost s0: State, ghost steps0: seq<Step>, ghost queued: seq<bool>, ghost did: seq<seq<Act>>)
    returns (ok: bool, ghost more: seq<Act>)
    requires w.Valid() && DistinctInserts(results) && |queued| == i < |results| && results[i].inserted
    requires steps0 <= w.steps && w.states[|steps0|] == s0 && results[i].id in s0.cells
    requires Progress(w.s, w.states, w.steps, s0, steps0, results, at, calls, queued, did)
    modifies w
    ensures w.Valid() && w.Since(old(w.states), old(w.steps))
    ensures Progress(w.s, w.states, w.steps, s0, steps0, results, at, calls, queued + [ok], did + [more])
  {
    assert TaskIs(w.s, results[i].id, ToRead(at));
    SameDue(w.states, w.steps, |steps0|, results[i].id, at);
    ok, more := PublishOne(w, Inserted(results), results[i].id, at, calls(i));
    TasksMove(old(w.s), w.s, results, i, ToRead(at), NoTask);
    OneMoreDid(steps0, old(w.steps), w.steps, results, did, more);
    MarkedJoin(old(w.states), old(w.steps), w.states, w.steps, |steps0|, Inserted(results), QueuedIds(results, queued),
               if ok then {results[i].id} else {});
    QueuedMore(results, queued, ok);
  }

  /** A result that is an old row is passed over. */
  lemma PassedOver(
    s: State, states: seq<State>, steps: seq<Step>, s0: State, steps0: seq<Step>, results: seq<Result>, at: int,
    calls: nat -> Calls, queued: seq<bool>, did: seq<seq<Act>>)
    requires Progress(s, states, steps, s0, steps0, results, at, calls, queued, did)
    requires |queued| < |results| && !results[|queued|].inserted
    ensures Progress(s, states, steps, s0, steps0, results, at, calls, queued + [false], did + [[]])
  {
    QueuedMore(results, queued, false);
  }

  /** The loop after the commit. */
  method PublishAll(w: World, results: seq<Result>, at: int, calls: nat -> Calls)
    returns (queued: seq<bool>, ghost did: seq<seq<Act>>)
    requires w.Valid() && DistinctInserts(results) && AllTasks(w.s, results, 0, |results|, ToRead(at))
    modifies w
    ensures w.Valid() && w.Since(old(w.states), old(w.steps)) && |queued| == |results|
    ensures Progress(w.s, w.states, w.steps, old(w.s), old(w.steps), results, at, calls, queued, did)
  {
    queued, did := [], [];
    for i := 0 to |results|
      invariant w.Valid() && w.Since(old(w.states), old(w.steps)) && |queued| == i
      invariant Progress(w.s, w.states, w.steps, old(w.s), old(w.steps), results, at, calls, queued, did)
    {
      var ok := false;
      ghost var more := [];
      if results[i].inserted {
        assert TaskIs(old(w.s), results[i].id, ToRead(at));
        ok, more := PublishNext(w, results, i, at, calls, old(w.s), old(w.steps), queued, did);
      } else {
        PassedOver(w.s, w.states, w.steps, old(w.s), old(w.steps), results, at, calls, queued, did);
      }
      queued, did := queued + [ok], did + [more];
    }
  }

  lemma QueuedIff(results: seq<Result>, queued: seq<bool>, i: nat)
    requires DistinctInserts(results) && |queued| == |results| && i < |results| && results[i].inserted
    requires forall j :: 0 <= j < |results| && queued[j] ==> results[j].inserted
    ensures queued[i] <==> results[i].id in QueuedIds(results, queued)
  {
    if results[i].id in QueuedIds(results, queued) {
      var j :| 0 <= j < |queued| && queued[j] && results[j].id == results[i].id;
      assert j == i;
    }
  }

  /** A row once reported queued has left pending for good. */
  lemma QueuedLeftPending(states: seq<State>, steps: seq<Step>, lo: nat, k: nat)
    requires Run(states, steps) && QueuedSince(states, steps, lo, k)
    ensures LeftPending(states[|steps|], k)
  {
    var i :| lo <= i < |steps| && i < |states| && Queues(states[i], steps[i], k);
    assert StepAt(states, steps, i);
    StatusMachine(states, steps, i + 1, |steps|, k);
  }

  /** The request's whole work for row n since `before`, when state s was committed: one clock reading,
      then what it calls for. */
  ghost predicate WorkedOn(
    s: State, before: seq<Step>, steps: seq<Step>, n: nat, calls: Calls, queued: bool, did: seq<Act>)
  {
    && n in s.cells && Log(steps, Creator({n})) == Log(before, Creator({n})) + did
    && |did| > 0 && did[0] == Api(TakeTime) && PublishedOrLeft(did[1..], DueBy(s.cells[n].row, s.now), calls, queued)
  }

  ghost predicate AllWorkedOn(
    s: State, before: seq<Step>, steps: seq<Step>, results: seq<Result>, calls: nat -> Calls, queued: seq<bool>)
  {
    |queued| == |results| &&
    forall i :: 0 <= i < |results| && results[i].inserted ==>
      exists did :: WorkedOn(s, before, steps, results[i].id, calls(i), queued[i], did)
  }

  lemma AllWork(
    s: State, s1: State, before: seq<Step>, steps1: seq<Step>, steps: seq<Step>, results: seq<Result>,
    calls: nat -> Calls, queued: seq<bool>, did: seq<seq<Act>>)
    requires Clocked(before, steps1, results, |results|)
    requires AllDid(steps1, steps, results, |results|, did) && AllHandled(s1, results, s.now, calls, queued, did)
    requires |queued| == |results|
    requires SameRows(s, s1)
    ensures AllWorkedOn(s, before, steps, results, calls, queued)
  {
    forall i | 0 <= i < |results| && results[i].inserted
      ensures exists did :: WorkedOn(s, before, steps, results[i].id, calls(i), queued[i], did)
    {
      var log := Log(before, Creator({results[i].id}));
      assert (log + [Api(TakeTime)]) + did[i] == log + ([Api(TakeTime)] + did[i]);
      assert ([Api(TakeTime)] + did[i])[1..] == did[i];
      assert WorkedOn(s, before, steps, results[i].id, calls(i), queued[i], [Api(TakeTime)] + did[i]);
    }
  }

  /** After the commit every newly inserted row is worked on once, and only those; a row is reported
      queued exactly when the request's own MarkQueued for it succeeded, and has then left pending. */
  method PublishCommitted(w: World, results: seq<Result>, calls: nat -> Calls) returns (queued: seq<bool>)
    requires w.Valid() && DistinctInserts(results) && AllTasks(w.s, results, 0, |results|, ToClock)
    modifies w
    ensures w.Valid() && w.Since(old(w.states), old(w.steps)) && |queued| == |results|
    ensures AllTasks(w.s, results, 0, |results|, NoTask)
    ensures forall i :: 0 <= i < |results| ==>
              (queued[i] <==> results[i].inserted && QueuedSince(w.states, w.steps, |old(w.steps)|, results[i].id))
    ensures forall i :: 0 <= i < |results| && queued[i] ==> LeftPending(w.s, results[i].id)
    ensures AllWorkedOn(old(w.s), old(w.steps), w.steps, results, calls, queued)
  {
    var at := CaptureNow(w, results);
    ghost var states1, steps1, s1 := w.states, w.steps, w.s;
    ghost var did;
    queued, did := PublishAll(w, results, at, calls);
    MarkedJoin(states1, steps1, w.states, w.steps, |old(w.steps)|, Inserted(results), {}, QueuedIds(results, queued));
    AllWork(old(w.s), s1, old(w.steps), steps1, w.steps, results, calls, queued, did);
    forall i | 0 <= i < |results| && results[i].inserted
      ensures queued[i] <==> QueuedSince(w.states, w.steps, |old(w.steps)|, results[i].id)
      ensures queued[i] ==> LeftPending(w.s, results[i].id)
    {
      QueuedIff(results, queued, i);
      assert results[i].id in Inserted(results);
      if queued[i] {
        QueuedLeftPending(w.states, w.steps, |old(w.steps)|, results[i].id);
      }
    }
  }

  predicate LeftPending(s: State, n: nat) {
    n in s.cells && !s.cells[n].row.status.Pending?
  }

  // ---- outbox relay --------------------------------------------------------------------------

  ghost predicate RelayAt(s: State, n: nat, o: nat, pc: RelayPc) {
    n in s.cells && o in s.cells[n].entries && s.cells[n].entries[o] == Entry(false, pc)
  }

  /** In the steps after `before` this transaction did exactly this. */
  ghost predicate Ran(before: seq<Step>, steps: seq<Step>, who: Who, did: seq<Act>) {
    Log(steps, who) == Log(before, who) + did
  }

  lemma RanJoin(s0: seq<Step>, s1: seq<Step>, s2: seq<Step>, who: Who, a: seq<Act>, b: seq<Act>)
    requires Ran(s0, s1, who, a) && Ran(s1, s2, who, b)
    ensures Ran(s0, s2, who, a + b)
  {
    assert (Log(s0, who) + a) + b == Log(s0, who) + (a + b);
  }

  method RelayRead(w: World, n: nat, o: nat, db: Db, plan: seq<Step>) returns (row: Row, ok: bool)
    requires w.Valid() && RelayAt(w.s, n, o, Claimed)
    modifies w
    ensures Ran(old(w.steps), w.steps, RelayTx(n, o), [Relay(o, RRead(db))])
    ensures w.Valid() && w.Since(old(w.states), old(w.steps)) && ok == db.Fine?
    ensures n in w.s.cells && row == w.s.cells[n].row
    ensures RelayAt(w.s, n, o, if !ok then Idle else if row.status.Pending? then Publishing else Draining)
  {
    w.Others(RelayTx(n, o), plan);
    row, ok := w.s.cells[n].row, db.Fine?;
    w.Perform(Do(n, Relay(o, RRead(db))));
    LastLogged(old(w.steps), w.steps, RelayTx(n, o));
  }

  method RelayPublish(w: World, n: nat, o: nat, ok: bool, plan: seq<Step>) returns (copy: nat)
    requires w.Valid() && RelayAt(w.s, n, o, Publishing)
    modifies w
    ensures Ran(old(w.steps), w.steps, RelayTx(n, o), [Relay(o, RPublish(ok))])
    ensures w.Valid() && w.Since(old(w.states), old(w.steps))
    ensures RelayAt(w.s, n, o, if ok then Committing(copy) else Idle)
    ensures ok ==> copy in w.s.cells[n].msgs && w.s.cells[n].msgs[copy] == Msg(copy, 0, InQueue)
  {
    w.Others(RelayTx(n, o), plan);
    copy := w.s.cells[n].next;
    w.Perform(Do(n, Relay(o, RPublish(ok))));
    LastLogged(old(w.steps), w.steps, RelayTx(n, o));
  }

  /** In the last step the entry was marked together with the row's update, or neither changed. */
  ghost predicate BothOrNeither(states: seq<State>, n: nat, o: nat) {
    |states| >= 2 &&
    var before, after := states[|states| - 2], states[|states| - 1];
    && n in before.cells && n in after.cells && o in before.cells[n].entries && o in after.cells[n].entries
    && !before.cells[n].entries[o].published
    && (if after.cells[n].entries[o].published
        then before.cells[n].row.status.Pending? && after.cells[n].row == before.cells[n].row.(status := Queued)
        else after.cells[n].row == before.cells[n].row)
  }

  /** Before the last step the row was pending and unlocked, and the call works. */
  ghost predicate Took(states: seq<State>, n: nat, db: Db) {
    |states| >= 2 &&
    var before := states[|states| - 2];
    n in before.cells && before.cells[n].row.status.Pending? && before.cells[n].sched.Unlocked? && db.Fine?
  }

  /** MarkQueued, MarkOutboxPublished and the commit; all or nothing, also when the database reports
      an error. */
  method RelayCommit(w: World, n: nat, o: nat, copy: nat, db: Db, plan: seq<Step>)
    returns (ok: bool, ghost ended: Db)
    requires w.Valid() && RelayAt(w.s, n, o, Committing(copy))
    modifies w
    ensures w.Valid() && w.Since(old(w.states), old(w.steps)) && n in w.s.cells && o in w.s.cells[n].entries
    ensures EndsAs(ended, db) && Ran(old(w.steps), w.steps, RelayTx(n, o), [Relay(o, RCommit(ended))])
    ensures BothOrNeither(w.states, n, o) && (ok <==> Took(w.states, n, db))
    ensures ok ==> w.s.cells[n].entries[o] == Entry(true, Idle) && w.s.cells[n].row.status.Queued?
    ensures !ok && db.Fine? ==> w.s.cells[n].entries[o] == Entry(false, Idle)
    ensures w.s.cells[n].entries[o].relay.Idle?
  {
    w.Others(RelayTx(n, o), plan);
    var c := w.s.cells[n];
    ok, ended := Reported(ToQueued, c.row, Waited(c, db)), Waited(c, db);
    w.Perform(Do(n, Relay(o, RCommit(Waited(c, db)))));
    LastLogged(old(w.steps), w.steps, RelayTx(n, o));
  }

  method RelayDrain(w: World, n: nat, o: nat, db: Db, plan: seq<Step>)
    requires w.Valid() && RelayAt(w.s, n, o, Draining)
    modifies w
    ensures Ran(old(w.steps), w.steps, RelayTx(n, o), [Relay(o, RDrain(db))])
    ensures w.Valid() && w.Since(old(w.states), old(w.steps)) && n in w.s.cells && o in w.s.cells[n].entries
    ensures w.s.cells[n].entries[o].relay.Idle? && (db.Fine? ==> w.s.cells[n].entries[o].published)
  {
    w.Others(RelayTx(n, o), plan);
    w.Perform(Do(n, Relay(o, RDrain(db))));
    LastLogged(old(w.steps), w.steps, RelayTx(n, o));
  }

  /** All the transaction does for the entry it claimed, given the row it read: nothing more when the
      read fails, mark the entry when the row has left pending, else publish once, and when the broker
      took the message mark both in one commit. */
  ghost predicate Relayed(did: seq<Act>, o: nat, seen: Row, calls: Calls) {
    |did| > 1 && did[0] == Relay(o, RClaim) && did[1] == Relay(o, RRead(calls.db(0))) &&
    if !calls.db(0).Fine? then |did| == 2
    else if !seen.status.Pending? then |did| == 3 && did[2] == Relay(o, RDrain(calls.db(1)))
    else
      |did| > 2 && did[2] == Relay(o, RPublish(calls.published)) &&
      if calls.published
      then |did| == 4 && did[3].Relay? && did[3].o == o && did[3].r.RCommit? && EndsAs(did[3].r.db, calls.db(2))
      else |did| == 3
  }

  /** Claim an entry and read its row. */
  method RelayClaim(w: World, n: nat, o: nat, calls: Calls) returns (row: Row, found: bool)
    requires w.Valid() && CanStep(w.s, Do(n, Relay(o, RClaim)))
    modifies w
    ensures w.Valid() && w.Since(old(w.states), old(w.steps)) && found == calls.db(0).Fine?
    ensures RelayAt(w.s, n, o, if !found then Idle else if row.status.Pending? then Publishing else Draining)
    ensures Ran(old(w.steps), w.steps, RelayTx(n, o), [Relay(o, RClaim), Relay(o, RRead(calls.db(0)))])
  {
    w.Perform(Do(n, Relay(o, RClaim)));
    LastLogged(old(w.steps), w.steps, RelayTx(n, o));
    ghost var steps1 := w.steps;
    row, found := RelayRead(w, n, o, calls.db(0), calls.plan(0));
    RanJoin(old(w.steps), steps1, w.steps, RelayTx(n, o), [Relay(o, RClaim)], [Relay(o, RRead(calls.db(0)))]);
  }

  /** One iteration of the relay's tick for the entry its claim returned. */
  method RelayIteration(w: World, n: nat, o: nat, calls: Calls) returns (ok: bool, ghost did: seq<Act>, ghost seen: Row)
    requires w.Valid() && CanStep(w.s, Do(n, Relay(o, RClaim)))
    modifies w
    ensures w.Valid() && w.Since(old(w.states), old(w.steps)) && n in w.s.cells && o in w.s.cells[n].entries
    ensures Ran(old(w.steps), w.steps, RelayTx(n, o), did) && Relayed(did, o, seen, calls)
    ensures w.s.cells[n].entries[o].relay.Idle? && (ok ==> w.s.cells[n].entries[o].published)
    ensures (forall k :: calls.db(k).Fine?) ==> (ok <==> w.s.cells[n].entries[o].published)
    ensures |did| == 4 ==> (ok <==> Took(w.states, n, calls.db(2)))
    ensures |did| < 4 ==> (ok <==> calls.db(0).Fine? && !seen.status.Pending? && calls.db(1).Fine?)
  {
    var row, found := RelayClaim(w, n, o, calls);
    did, seen := [Relay(o, RClaim), Relay(o, RRead(calls.db(0)))], row;
    if !found {
      return false, did, seen;
    }
    ghost var steps2 := w.steps;
    if !row.status.Pending? {
      RelayDrain(w, n, o, calls.db(1), calls.plan(1));
      RanJoin(old(w.steps), steps2, w.steps, RelayTx(n, o), did, [Relay(o, RDrain(calls.db(1)))]);
      return calls.db(1).Fine?, did + [Relay(o, RDrain(calls.db(1)))], seen;
    }
    ok, did := RelayOn(w, n, o, calls, old(w.steps), did);
  }

  /** The row is pending: publish and commit. */
  method RelayOn(w: World, n: nat, o: nat, calls: Calls, ghost before: seq<Step>, ghost first: seq<Act>)
    returns (ok: bool, ghost did: seq<Act>)
    requires w.Valid() && RelayAt(w.s, n, o, Publishing) && Ran(before, w.steps, RelayTx(n, o), first)
    modifies w
    ensures w.Valid() && w.Since(old(w.states), old(w.steps)) && n in w.s.cells && o in w.s.cells[n].entries
    ensures Ran(before, w.steps, RelayTx(n, o), did)
    ensures !calls.published ==> did == first + [Relay(o, RPublish(false))] && !ok
    ensures calls.published ==>
              && (exists ended :: EndsAs(ended, calls.db(2))
                    && did == first + [Relay(o, RPublish(true))] + [Relay(o, RCommit(ended))])
              && (ok <==> Took(w.states, n, calls.db(2)))
    ensures w.s.cells[n].entries[o].relay.Idle? && (ok ==> w.s.cells[n].entries[o].published)
    ensures calls.db(2).Fine? ==> (ok <==> w.s.cells[n].entries[o].published)
  {
    var copy := RelayPublish(w, n, o, calls.published, calls.plan(2));
    RanJoin(before, old(w.steps), w.steps, RelayTx(n, o), first, [Relay(o, RPublish(calls.published))]);
    did := first + [Relay(o, RPublish(calls.published))];
    if !calls.published {
      return false, did;
    }
    ghost var steps1, ended := w.steps, Db.Fine;
    ok, ended := RelayCommit(w, n, o, copy, calls.db(2), calls.plan(3));
    RanJoin(before, steps1, w.steps, RelayTx(n, o), did, [Relay(o, RCommit(ended))]);
    did := did + [Relay(o, RCommit(ended))];
  }

  // ---- scheduler -------------------------------------------------------------------------------

  ghost predicate SchedAt(s: State, n: nat, pc: SchedPc) {
    n in s.cells && s.cells[n].sched == pc
  }

  method SchedRead(w: World, n: nat, db: Db, plan: seq<Step>) returns (row: Row, ok: bool)
    requires w.Valid() && SchedAt(w.s, n, SClaimed)
    modifies w
    ensures Ran(old(w.steps), w.steps, SchedTx(n), [Sched(SRead(db))])
    ensures w.Valid() && w.Since(old(w.states), old(w.steps)) && ok == db.Fine?
    ensures row.status.Pending? && row.scheduledAt.Some?
    ensures SchedAt(w.s, n, if ok then SPublishing else Unlocked)
  {
    w.Others(SchedTx(n), plan);
    w.SafeNow();
    row, ok := w.s.cells[n].row, db.Fine?;
    assert Safe(w.s.cells[n], w.s.now);
    w.Perform(Do(n, Sched(SRead(db))));
    LastLogged(old(w.steps), w.steps, SchedTx(n));
  }

  method SchedPublish(w: World, n: nat, ok: bool, plan: seq<Step>) returns (copy: nat)
    requires w.Valid() && SchedAt(w.s, n, SPublishing)
    modifies w
    ensures Ran(old(w.steps), w.steps, SchedTx(n), [Sched(SPublish(ok))])
    ensures w.Valid() && w.Since(old(w.states), old(w.steps))
    ensures SchedAt(w.s, n, if ok then SCommitting(copy) else Unlocked)
    ensures ok ==> copy in w.s.cells[n].msgs && w.s.cells[n].msgs[copy] == Msg(copy, 0, InQueue)
  {
    w.Others(SchedTx(n), plan);
    copy := w.s.cells[n].next;
    w.Perform(Do(n, Sched(SPublish(ok))));
    LastLogged(old(w.steps), w.steps, SchedTx(n));
  }

  /** The lock makes the guard of MarkQueued pass: the commit queues the row unless the database fails. */
  method SchedCommit(w: World, n: nat, copy: nat, db: Db, plan: seq<Step>) returns (ok: bool)
    requires w.Valid() && SchedAt(w.s, n, SCommitting(copy))
    modifies w
    ensures Ran(old(w.steps), w.steps, SchedTx(n), [Sched(SCommit(db))])
    ensures w.Valid() && w.Since(old(w.states), old(w.steps)) && SchedAt(w.s, n, Unlocked)
    ensures ok == db.Fine? && (ok ==> w.s.cells[n].row.status.Queued?)
  {
    w.Others(SchedTx(n), plan);
    w.SafeNow();
    assert Safe(w.s.cells[n], w.s.now);
    ok := Reported(ToQueued, w.s.cells[n].row, db);
    w.Perform(Do(n, Sched(SCommit(db))));
    LastLogged(old(w.steps), w.steps, SchedTx(n));
  }

  /** Claim a row and read it again. */
  method SchedClaim(w: World, n: nat, calls: Calls) returns (row: Row, found: bool)
    requires w.Valid() && CanStep(w.s, Do(n, Sched(SClaim)))
    modifies w
    ensures w.Valid() && w.Since(old(w.states), old(w.steps)) && found == calls.db(0).Fine?
    ensures row.status.Pending? && row.scheduledAt.Some?
    ensures SchedAt(w.s, n, if found then SPublishing else Unlocked)
    ensures Ran(old(w.steps), w.steps, SchedTx(n), [Sched(SClaim), Sched(SRead(calls.db(0)))])
  {
    w.Perform(Do(n, Sched(SClaim)));
    LastLogged(old(w.steps), w.steps, SchedTx(n));
    ghost var steps1 := w.steps;
    row, found := SchedRead(w, n, calls.db(0), calls.plan(0));
    RanJoin(old(w.steps), steps1, w.steps, SchedTx(n), [Sched(SClaim)], [Sched(SRead(calls.db(0)))]);
  }

  /** One iteration of the scheduler's tick for the row its claim returned: it reads the row, publishes it
      once, and when the broker took the message commits. */
  method SchedIteration(w: World, n: nat, calls: Calls) returns (ok: bool, ghost did: seq<Act>)
    requires w.Valid() && CanStep(w.s, Do(n, Sched(SClaim)))
    modifies w
    ensures w.Valid() && w.Since(old(w.states), old(w.steps)) && SchedAt(w.s, n, Unlocked)
    ensures Ran(old(w.steps), w.steps, SchedTx(n), did)
    ensures did == [Sched(SClaim), Sched(SRead(calls.db(0)))]
                   + (if calls.db(0).Fine? then [Sched(SPublish(calls.published))] else [])
                   + (if calls.db(0).Fine? && calls.published then [Sched(SCommit(calls.db(1)))] else [])
    ensures ok <==> calls.db(0).Fine? && calls.published && calls.db(1).Fine?
    ensures ok ==> w.s.cells[n].row.status.Queued?
  {
    var row, found := SchedClaim(w, n, calls);
    did := [Sched(SClaim), Sched(SRead(calls.db(0)))];
    if !found {
      return false, did;
    }
    if !row.status.Pending? || row.scheduledAt.None? {
      assert false;
    }
    ok, did := SchedOn(w, n, calls, old(w.steps), did);
  }

  /** Publish and commit. */
  method SchedOn(w: World, n: nat, calls: Calls, ghost before: seq<Step>, ghost first: seq<Act>)
    returns (ok: bool, ghost did: seq<Act>)
    requires w.Valid() && SchedAt(w.s, n, SPublishing) && Ran(before, w.steps, SchedTx(n), first)
    modifies w
    ensures w.Valid() && w.Since(old(w.states), old(w.steps)) && SchedAt(w.s, n, Unlocked)
    ensures Ran(before, w.steps, SchedTx(n), did)
    ensures did == first + [Sched(SPublish(calls.published))]
                   + (if calls.published then [Sched(SCommit(calls.db(1)))] else [])
    ensures ok <==> calls.published && calls.db(1).Fine?
    ensures ok ==> w.s.cells[n].row.status.Queued?
  {
    var copy := SchedPublish(w, n, calls.published, calls.plan(1));
    RanJoin(before, old(w.steps), w.steps, SchedTx(n), first, [Sched(SPublish(calls.published))]);
    did := first + [Sched(SPublish(calls.published))];
    if !calls.published {
      return false, did;
    }
    ghost var steps1 := w.steps;
    ok := SchedCommit(w, n, copy, calls.db(1), calls.plan(2));
    RanJoin(before, steps1, w.steps, SchedTx(n), did, [Sched(SCommit(calls.db(1)))]);
    did := did + [Sched(SCommit(calls.db(1)))];
  }

  // ---- cancel ------------------------------------------------------------------------------------

  /** The cancel endpoint: succeeds exactly on a pending or queued row, and a refused cancel leaves
      the row as it was. */
  method CancelNotification(w: World, n: nat, db: Db) returns (ok: bool)
    requires w.Valid() && n in w.s.cells
    modifies w
    ensures w.Valid() && w.Since(old(w.states), old(w.steps)) && n in w.s.cells
    ensures ok ==> w.s.cells[n].row == old(w.s.cells[n].row).(status := Cancelled)
    ensures db.Fine? && old(w.s.cells[n].sched.Unlocked?) ==>
              (ok <==> old(w.s.cells[n].row.status) in {Pending, Queued})
              && (!ok ==> w.s.cells[n].row == old(w.s.cells[n].row))
  {
    var c := w.s.cells[n];
    ok := Reported(ToCancelled, c.row, Waited(c, db));
    w.Perform(Do(n, Cancel(Waited(c, db))));
  }
}
