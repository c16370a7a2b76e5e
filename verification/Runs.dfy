/** Whole runs of the system: any number of notifications and replicas, interleaved step by step. */
module Runs {
  import opened Domain
  import opened Protocol

  /** Row and batch ids below these have been handed out; batches maps a batch to its item count. */
  datatype Catalog = Catalog(nextRow: nat, nextBatch: nat, batches: map<nat, nat>)

  const EMPTY_CATALOG := Catalog(0, 0, map[])

  /** nextOut: the sequence behind the outbox primary key. */
  datatype State = State(now: int, cells: map<nat, Cell>, nextOut: nat, catalog: Catalog)

  /** Commit: a creation request commits its newly inserted rows and its batch.  Tick: time passes. */
  datatype Step = Commit(rows: map<nat, Row>, catalog: Catalog) | Tick(d: nat) | Do(n: nat, act: Act)

  ghost predicate Initial(s: State) {
    s.cells == map[] && s.nextOut == 0 && s.catalog == EMPTY_CATALOG
  }

  /** Ids are new, though some may be skipped, and recorded batches stay. */
  predicate CatalogGrows(before: Catalog, after: Catalog) {
    && before.nextRow <= after.nextRow && before.nextBatch <= after.nextBatch
    && (forall b :: b in before.batches ==> b in after.batches && after.batches[b] == before.batches[b])
    && (forall b :: b in after.batches && b !in before.batches ==> before.nextBatch <= b < after.nextBatch)
  }

  /** A new row is pending, has a new id, and belongs to no batch or to a new one. */
  predicate FreshRow(before: Catalog, after: Catalog, n: nat, row: Row) {
    && row.status.Pending? && row.provider.None? && before.nextRow <= n < after.nextRow
    && (row.batch.Some? ==> row.batch.value in after.batches && before.nextBatch <= row.batch.value < after.nextBatch)
  }

  predicate SameKey(a: Row, b: Row) {
    a.key.Some? && a.key == b.key
  }

  /** The unique index on the idempotency key lets the new rows in. */
  predicate KeysAdmitted(cells: map<nat, Cell>, rows: map<nat, Row>) {
    && (forall n, k :: n in rows && k in rows && SameKey(rows[n], rows[k]) ==> n == k)
    && (forall n, k :: n in rows && k in cells ==> !SameKey(rows[n], cells[k].row))
  }

  predicate CanStep(s: State, step: Step) {
    match step
    case Commit(rows, catalog) =>
      && rows.Keys !! s.cells.Keys && CatalogGrows(s.catalog, catalog) && KeysAdmitted(s.cells, rows)
      && forall n :: n in rows ==> FreshRow(s.catalog, catalog, n, rows[n])
    case Tick(_) => true
    case Do(n, a) =>
      && n in s.cells && Enabled(s.cells[n], s.now, a)
      && (a.Api? && a.t.Enqueue? ==> a.t.id == s.nextOut)
  }

  function NewCells(rows: map<nat, Row>): map<nat, Cell> {
    map n | n in rows :: NewCell(rows[n])
  }

  function Next(s: State, step: Step): State
    requires CanStep(s, step)
  {
    match step
    case Commit(rows, catalog) => s.(cells := s.cells + NewCells(rows), catalog := catalog)
    case Tick(d) => s.(now := s.now + d)
    case Do(n, a) =>
      s.(cells := s.cells[n := Apply(s.cells[n], s.now, a)],
         nextOut := if a.Api? && a.t.Enqueue? then s.nextOut + 1 else s.nextOut)
  }

  ghost predicate StepAt(states: seq<State>, steps: seq<Step>, i: nat)
    requires i < |steps| && i + 1 < |states|
  {
    CanStep(states[i], steps[i]) && states[i + 1] == Next(states[i], steps[i])
  }

  /** states[i] is the state before steps[i]. */
  ghost predicate Run(states: seq<State>, steps: seq<Step>) {
    && |states| == |steps| + 1
    && Initial(states[0])
    && forall i :: 0 <= i < |steps| ==> StepAt(states, steps, i)
  }

  /** Step i belongs to notification n. */
  ghost predicate Does(states: seq<State>, steps: seq<Step>, i: nat, n: nat)
    requires i < |steps| && i < |states|
  {
    steps[i].Do? && steps[i].n == n && n in states[i].cells
  }

  lemma RunExtends(states: seq<State>, steps: seq<Step>, step: Step, s: State)
    requires Run(states, steps) && CanStep(states[|steps|], step) && s == Next(states[|steps|], step)
    ensures Run(states + [s], steps + [step])
  {
    var states', steps' := states + [s], steps + [step];
    forall i | 0 <= i < |steps'| ensures StepAt(states', steps', i) {
      if i < |steps| {
        assert StepAt(states, steps, i);
      }
    }
  }

  // ---- counting what happened ------------------------------------------------------------------

  /** Things a step of one notification can be counted as; r names an initial publish. */
  datatype Kind =
    | HandedPublish
    | ScheduledPublish
    | DeliveryReported
    | DeliveredEvent
    | AcceptedPost
    | WorkerGone
    | PostOf(r: nat)
    | TransientOf(r: nat)
    | RepublishOf(r: nat)
    | HandlingOf(r: nat)
    | RevertOf(r: nat)
    | LimitedOf(r: nat)

  predicate Stems(c: Cell, m: nat, r: nat) {
    m in c.msgs && c.msgs[m].root == r
  }

  predicate Happens(k: Kind, c: Cell, a: Act) {
    match k
    case HandedPublish => a == Api(TryPublish(true)) || (a.Relay? && a.r == RPublish(true))
    case ScheduledPublish => a == Sched(SPublish(true))
    case DeliveryReported =>
      a.Send? && a.p.MarkDelivered? && a.m in c.msgs && Running(c.msgs[a.m].loc) && c.msgs[a.m].loc.pc.Marking?
      && Reported(ToDelivered(c.msgs[a.m].loc.pc.mid), c.row, a.p.db)
    case DeliveredEvent => a.Send? && a.p == Announce(true)
    case AcceptedPost => a.Send? && a.p.EndPost? && a.p.res.Accepted?
    case WorkerGone => a.Leave? && (a.l.Crash? || a.l.LoseConnection?)
    case PostOf(r) => a.Send? && Stems(c, a.m, r) && a.p.BeginPost?
    case TransientOf(r) => a.Send? && Stems(c, a.m, r) && a.p == EndPost(Transient)
    case RepublishOf(r) => a.Leave? && Stems(c, a.m, r) && a.l == Republish(true)
    case HandlingOf(r) => a.Take? && Stems(c, a.m, r) && a.k.Deliver?
    case RevertOf(r) => a.Leave? && Stems(c, a.m, r) && a.l.Release?
    case LimitedOf(r) => a.Take? && Stems(c, a.m, r) && a.k == Limit(false)
  }

  /** How often k happened to notification n in the first i steps. */
  ghost function Tally(states: seq<State>, steps: seq<Step>, k: Kind, n: nat, i: nat): nat
    requires Run(states, steps) && i <= |steps|
  {
    if i == 0 then 0
    else
      assert StepAt(states, steps, i - 1);
      Tally(states, steps, k, n, i - 1)
      + if steps[i - 1].Do? && steps[i - 1].n == n && Happens(k, states[i - 1].cells[n], steps[i - 1].act) then 1 else 0
  }

  /** Successful initial publishes, by the API or its outbox relay and by the scheduler. */
  ghost function Publishes(states: seq<State>, steps: seq<Step>, n: nat, i: nat): nat
    requires Run(states, steps) && i <= |steps|
  {
    Tally(states, steps, HandedPublish, n, i) + Tally(states, steps, ScheduledPublish, n, i)
  }

  /** What this step slept in backoff for lineage r, in nanoseconds. */
  function SleepOf(c: Cell, a: Act, r: nat): nat {
    if a.Leave? && Stems(c, a.m, r) && a.l.Wait? && a.l.w.Elapsed?
    then BackoffMs(c.msgs[a.m].retry) * 1_000_000 + a.l.w.jitter
    else 0
  }

  ghost function SleepTally(states: seq<State>, steps: seq<Step>, n: nat, r: nat, i: nat): nat
    requires Run(states, steps) && i <= |steps|
  {
    if i == 0 then 0
    else
      assert StepAt(states, steps, i - 1);
      SleepTally(states, steps, n, r, i - 1)
      + if steps[i - 1].Do? && steps[i - 1].n == n then SleepOf(states[i - 1].cells[n], steps[i - 1].act, r) else 0
  }
}
