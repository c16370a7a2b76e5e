/** The tables as a creation request finds them in the middle of a run. */
module Snapshots {
  import opened Domain
  import opened Protocol
  import opened Runs
  import opened Safety
  import opened Validation
  import opened Publishers
  import opened Creation
  import opened Histories
  import Theorems

  /** The unique index: no two rows have the same key. */
  ghost predicate KeysUnique(s: State) {
    forall n, k :: n in s.cells && k in s.cells && SameKey(s.cells[n].row, s.cells[k].row) ==> n == k
  }

  /** Ids in use were handed out before. */
  ghost predicate IdsIssued(s: State) {
    && (forall n :: n in s.cells ==>
          && n < s.catalog.nextRow
          && (s.cells[n].row.batch.Some? ==> s.cells[n].row.batch.value < s.catalog.nextBatch))
    && (forall b :: b in s.catalog.batches ==> b < s.catalog.nextBatch)
  }

  ghost predicate Consistent(s: State) {
    KeysUnique(s) && IdsIssued(s)
  }

  /** What a transaction started now sees. */
  function Snapshot(s: State): Table
    requires KeysUnique(s)
  {
    Table(RowsOf(s.cells), KeysOf(s), s.catalog.nextRow, s.catalog.batches, s.catalog.nextBatch)
  }

  function RowsOf(cells: map<nat, Cell>): map<nat, Row> {
    map n | n in cells :: cells[n].row
  }

  function KeysOf(s: State): map<string, nat>
    requires KeysUnique(s)
  {
    map n | n in s.cells && s.cells[n].row.key.Some? :: s.cells[n].row.key.value := n
  }

  lemma DoConsistent(s: State, n: nat, a: Act)
    requires Consistent(s) && CanStep(s, Do(n, a)) && Safe(s.cells[n], s.now)
    ensures Consistent(Next(s, Do(n, a)))
  {
    StepIsSafe(s.cells[n], s.now, a);
  }

  lemma CommitKeys(s: State, step: Step, n: nat, k: nat)
    requires KeysUnique(s) && CanStep(s, step) && step.Commit? && n in Next(s, step).cells && k in Next(s, step).cells
    requires SameKey(Next(s, step).cells[n].row, Next(s, step).cells[k].row)
    ensures n == k
  {
    assert KeysAdmitted(s.cells, step.rows);
  }

  lemma CommitIds(s: State, step: Step)
    requires IdsIssued(s) && CanStep(s, step) && step.Commit?
    ensures IdsIssued(Next(s, step))
  {
    forall n | n in step.rows ensures FreshRow(s.catalog, step.catalog, n, step.rows[n]) {
    }
  }

  lemma CommitConsistent(s: State, step: Step)
    requires Consistent(s) && CanStep(s, step) && step.Commit?
    ensures Consistent(Next(s, step))
  {
    CommitIds(s, step);
    var s' := Next(s, step);
    forall n, k | n in s'.cells && k in s'.cells && SameKey(s'.cells[n].row, s'.cells[k].row) ensures n == k {
      CommitKeys(s, step, n, k);
    }
  }

  lemma {:induction false} RunConsistent(states: seq<State>, steps: seq<Step>, i: nat)
    requires Run(states, steps) && i < |states|
    ensures Consistent(states[i])
  {
    if i > 0 {
      assert StepAt(states, steps, i - 1);
      RunConsistent(states, steps, i - 1);
      var s, step := states[i - 1], steps[i - 1];
      match step
      case Commit(_, _) => CommitConsistent(s, step);
      case Tick(_) =>
      case Do(n, a) =>
        Theorems.CellSafe(states, steps, i - 1, n);
        DoConsistent(s, n, a);
    }
  }

  lemma SnapshotWellformed(s: State)
    requires Consistent(s)
    ensures Wellformed(Snapshot(s))
  {
    var t := Snapshot(s);
    forall id | id in t.rows ensures id < t.nextId && Indexed(t, id) {
    }
  }

  // ---- committing a request ------------------------------------------------------------------------

  function NewRows(t: Table, t': Table): map<nat, Row> {
    map id | id in t'.rows && id !in t.rows :: t'.rows[id]
  }

  /** The step by which an accepted request takes effect. */
  function CommitOf(s: State, items: seq<CreateItem>, at: int): Step
    requires KeysUnique(s) && Acceptable(items)
  {
    var t := Snapshot(s);
    var t' := Create(t, items, at).0;
    Commit(NewRows(t, t'), Catalog(t'.nextId, t'.nextBatch, t'.batches))
  }

  lemma CreateCatalog(t: Table, items: seq<CreateItem>, at: int)
    requires Wellformed(t) && Acceptable(items)
    ensures
      var t' := Create(t, items, at).0;
      var (before, after) := (Catalog(t.nextId, t.nextBatch, t.batches), Catalog(t'.nextId, t'.nextBatch, t'.batches));
      && CatalogGrows(before, after)
      && forall n :: n in NewRows(t, t') ==> FreshRow(before, after, n, t'.rows[n])
  {
    CreateExtends(t, items, at);
    var t' := Create(t, items, at).0;
    forall n | n in NewRows(t, t')
      ensures FreshRow(Catalog(t.nextId, t.nextBatch, t.batches),
                       Catalog(t'.nextId, t'.nextBatch, t'.batches), n, t'.rows[n])
    {
      var p := NewRow(t, items, at, n);
    }
  }

  lemma OneKeyOneRow(t: Table, n: nat, k: nat)
    requires Wellformed(t) && n in t.rows && k in t.rows
    ensures SameKey(t.rows[n], t.rows[k]) ==> n == k
  {
    assert Indexed(t, n) && Indexed(t, k);
  }

  /** The database accepts the commit: ids are new and the unique index lets the rows in. */
  lemma CommitAdmitted(s: State, items: seq<CreateItem>, at: int)
    requires Consistent(s) && Acceptable(items)
    ensures CanStep(s, CommitOf(s, items, at))
  {
    SnapshotWellformed(s);
    var t := Snapshot(s);
    CreateCatalog(t, items, at);
    CreateExtends(t, items, at);
    var t' := Create(t, items, at).0;
    var rows := NewRows(t, t');
    forall n, k | n in rows && k in rows && SameKey(rows[n], rows[k]) ensures n == k {
      OneKeyOneRow(t', n, k);
    }
    forall n, k | n in rows && k in s.cells ensures !SameKey(rows[n], s.cells[k].row) {
      assert t'.rows[k] == t.rows[k];
      OneKeyOneRow(t', n, k);
    }
  }

  lemma RowsTogether(cells: map<nat, Cell>, rows: map<nat, Row>)
    ensures RowsOf(cells + NewCells(rows)) == RowsOf(cells) + rows
  {
  }

  lemma SnapshotIs(s: State, t: Table)
    requires Consistent(s) && Wellformed(t) && Snapshot(s).rows == t.rows
    requires s.catalog == Catalog(t.nextId, t.nextBatch, t.batches)
    ensures Snapshot(s) == t
  {
    SnapshotWellformed(s);
    SameIndex(Snapshot(s), t);
  }

  lemma NewRowsComplete(t: Table, t0: Table, t': Table, batch: Option<nat>)
    requires Extends(t0, t', batch) && t0.rows == t.rows
    ensures t.rows + NewRows(t, t') == t'.rows
  {
  }

  lemma CommitTables(s: State, rows: map<nat, Row>, catalog: Catalog, t: Table)
    requires Consistent(s) && CanStep(s, Commit(rows, catalog)) && Wellformed(t)
    requires RowsOf(s.cells) + rows == t.rows && catalog == Catalog(t.nextId, t.nextBatch, t.batches)
    ensures Consistent(Next(s, Commit(rows, catalog))) && Snapshot(Next(s, Commit(rows, catalog))) == t
  {
    CommitConsistent(s, Commit(rows, catalog));
    RowsTogether(s.cells, rows);
    SnapshotIs(Next(s, Commit(rows, catalog)), t);
  }

  /** After the commit the tables are those the specification of the request says. */
  lemma CommitCreates(s: State, items: seq<CreateItem>, at: int)
    requires Consistent(s) && Acceptable(items) && CanStep(s, CommitOf(s, items, at))
    ensures Consistent(Next(s, CommitOf(s, items, at)))
    ensures Snapshot(Next(s, CommitOf(s, items, at))) == Create(Snapshot(s), items, at).0
  {
    var t := Snapshot(s);
    var t' := Create(t, items, at).0;
    var rows, catalog := NewRows(t, t'), Catalog(t'.nextId, t'.nextBatch, t'.batches);
    SnapshotWellformed(s);
    CreateExtends(t, items, at);
    NewRowsComplete(t, WithBatch(t, items), t', BatchOf(t, items));
    CommitTables(s, rows, catalog, t');
  }

  /** The index is determined by the rows. */
  lemma SameIndex(t: Table, u: Table)
    requires Wellformed(t) && Wellformed(u) && t.rows == u.rows
    ensures t.keys == u.keys
  {
    forall k | k in t.keys ensures k in u.keys && u.keys[k] == t.keys[k] {
      assert Indexed(u, t.keys[k]);
    }
    forall k | k in u.keys ensures k in t.keys {
      assert Indexed(t, u.keys[k]);
    }
  }

  // ---- over whole runs -----------------------------------------------------------------------------

  /** Through any run, with any other requests, faults and crashes, the tables only develop: keys
      stay bound to their rows, rows keep their columns, batches their counts. */
  lemma RunLasts(states: seq<State>, steps: seq<Step>, i: nat, j: nat)
    requires Run(states, steps) && i <= j < |states|
    ensures Consistent(states[i]) && Consistent(states[j]) && Lasts(Snapshot(states[i]), Snapshot(states[j]))
  {
    RunConsistent(states, steps, i);
    RunConsistent(states, steps, j);
    CatalogLasts(states, steps, i, j);
    var t, u := Snapshot(states[i]), Snapshot(states[j]);
    forall n | n in t.rows ensures n in u.rows && RowMoves(t.rows[n], u.rows[n]) {
      Theorems.StatusMachine(states, steps, i, j, n);
    }
    forall k | k in t.keys ensures k in u.keys && u.keys[k] == t.keys[k] {
      Theorems.StatusMachine(states, steps, i, j, t.keys[k]);
    }
  }

  ghost predicate CatalogKept(s: State, s': State) {
    && CatalogGrows(s.catalog, s'.catalog)
    && forall n :: n in s'.cells && n !in s.cells ==>
         && s.catalog.nextRow <= n
         && (s'.cells[n].row.batch.Some? ==> s.catalog.nextBatch <= s'.cells[n].row.batch.value)
  }

  lemma CatalogStep(states: seq<State>, steps: seq<Step>, i: nat)
    requires Run(states, steps) && i < |steps|
    ensures CatalogKept(states[i], states[i + 1])
  {
    assert StepAt(states, steps, i);
    if steps[i].Commit? {
      forall n | n in steps[i].rows ensures FreshRow(states[i].catalog, steps[i].catalog, n, steps[i].rows[n]) {
      }
    }
  }

  lemma {:induction false} CatalogLasts(states: seq<State>, steps: seq<Step>, i: nat, j: nat)
    requires Run(states, steps) && i <= j < |states|
    ensures CatalogKept(states[i], states[j])
  {
    if i < j {
      CatalogLasts(states, steps, i, j - 1);
      CatalogStep(states, steps, j - 1);
      forall n | n in states[j].cells && n in states[j - 1].cells
        ensures states[j].cells[n].row.batch == states[j - 1].cells[n].row.batch
      {
        Theorems.StatusMachine(states, steps, j - 1, j, n);
      }
    }
  }

  lemma CreatedAt(states: seq<State>, steps: seq<Step>, i: nat, items: seq<CreateItem>, at: int)
    requires Run(states, steps) && i < |steps| && Acceptable(items)
    requires KeysUnique(states[i]) && steps[i] == CommitOf(states[i], items, at)
    ensures Consistent(states[i]) && Consistent(states[i + 1])
    ensures Snapshot(states[i + 1]) == Create(Snapshot(states[i]), items, at).0
  {
    RunConsistent(states, steps, i);
    assert StepAt(states, steps, i);
    CommitCreates(states[i], items, at);
  }

  lemma ReplayAt(s: State, items: seq<CreateItem>, at: int, t1: Table, t2: Table, at2: int)
    requires Consistent(s) && Acceptable(items) && Keyed(items) && t1 == Create(Snapshot(s), items, at).0
    requires Lasts(t1, t2)
    ensures
      var (t3, rs) := Create(t2, items, at2);
      && t3.rows == t2.rows && Hits(rs) == |items|
      && forall p :: 0 <= p < |items| ==> rs[p] == Result(Create(Snapshot(s), items, at).1[p].id, false)
  {
    SnapshotWellformed(s);
    ReplayLater(Snapshot(s), items, at, t1, t2, at2);
  }

  /** Idempotency end to end: a fully keyed request sent again in any later state of the run, after
      any publishing, delivering, cancelling and any other requests, inserts nothing and answers
      with the ids of the first time. */
  lemma ReplayInRun(states: seq<State>, steps: seq<Step>, i: nat, j: nat, items: seq<CreateItem>, at: int, at2: int)
    requires Run(states, steps) && i < j < |states| && Acceptable(items) && Keyed(items)
    requires KeysUnique(states[i]) && steps[i] == CommitOf(states[i], items, at)
    ensures KeysUnique(states[j])
    ensures
      var first := Create(Snapshot(states[i]), items, at).1;
      var (t, rs) := Create(Snapshot(states[j]), items, at2);
      && t.rows == Snapshot(states[j]).rows && Hits(rs) == |items|
      && forall p :: 0 <= p < |items| ==> rs[p] == Result(first[p].id, false)
  {
    CreatedAt(states, steps, i, items, at);
    RunLasts(states, steps, i + 1, j);
    ReplayAt(states[i], items, at, Snapshot(states[i + 1]), Snapshot(states[j]), at2);
  }
}
