/** Creating notifications: one transaction inserts the items of a request, or returns the rows
    that already have their idempotency keys. */
module Creation {
  import opened Domain
  import opened Validation
  import opened Publishers

  const MAX_ITEMS: nat := 1000

  /** keys is the unique index on the idempotency key; batches maps a batch to its item count. */
  datatype Table = Table(
    rows: map<nat, Row>, keys: map<string, nat>, nextId: nat, batches: map<nat, nat>, nextBatch: nat)

  const EMPTY := Table(map[], map[], 0, map[], 0)

  predicate Indexed(t: Table, id: nat)
    requires id in t.rows
  {
    t.rows[id].key.Some? ==> t.rows[id].key.value in t.keys && t.keys[t.rows[id].key.value] == id
  }

  predicate Wellformed(t: Table) {
    && (forall id :: id in t.rows ==> id < t.nextId && Indexed(t, id))
    && (forall k :: k in t.keys ==> t.keys[k] in t.rows && t.rows[t.keys[k]].key == Some(k))
    && (forall id :: id in t.rows && t.rows[id].batch.Some? ==> t.rows[id].batch.value < t.nextBatch)
    && (forall b :: b in t.batches ==> b < t.nextBatch)
  }

  predicate AllValid(items: seq<CreateItem>) {
    forall i :: 0 <= i < |items| ==> Validate(items[i]).None?
  }

  /** INSERT ... ON CONFLICT DO NOTHING, and the SELECT by key when nothing was inserted. */
  function InsertOne(t: Table, batch: Option<nat>, item: CreateItem, at: int): (Table, Result)
    requires Validate(item).None?
  {
    var key := KeyOf(item);
    if key.Some? && key.value in t.keys then (t, Result(t.keys[key.value], false))
    else
      (t.(rows := t.rows[t.nextId := ToRow(item, batch, at)],
          keys := if key.Some? then t.keys[key.value := t.nextId] else t.keys,
          nextId := t.nextId + 1),
       Result(t.nextId, true))
  }

  function InsertAll(t: Table, batch: Option<nat>, items: seq<CreateItem>, at: int): (r: (Table, seq<Result>))
    requires AllValid(items)
    ensures |r.1| == |items|
  {
    if items == [] then (t, [])
    else
      var before := InsertAll(t, batch, items[..|items| - 1], at);
      var last := InsertOne(before.0, batch, items[|items| - 1], at);
      (last.0, before.1 + [last.1])
  }

  /** Items answered with a row that was there already. */
  function Hits(rs: seq<Result>): nat {
    if rs == [] then 0 else Hits(rs[..|rs| - 1]) + if rs[|rs| - 1].inserted then 0 else 1
  }

  lemma HitsStep(rs: seq<Result>, r: Result)
    ensures Hits(rs + [r]) == Hits(rs) + if r.inserted then 0 else 1
  {
    assert (rs + [r])[..|rs|] == rs;
  }

  /** Table, results and hits after the first i items. */
  predicate InsertedUpTo(
    t: Table, batch: Option<nat>, items: seq<CreateItem>, at: int, i: nat, t': Table, rs: seq<Result>, hits: nat)
    requires AllValid(items) && i <= |items|
  {
    (t', rs) == InsertAll(t, batch, items[..i], at) && hits == Hits(rs)
  }

  lemma InsertStep(
    t: Table, batch: Option<nat>, items: seq<CreateItem>, at: int, i: nat, t1: Table, rs: seq<Result>, hits: nat)
    requires AllValid(items) && i < |items| && InsertedUpTo(t, batch, items, at, i, t1, rs, hits)
    ensures
      var (t2, r) := InsertOne(t1, batch, items[i], at);
      InsertedUpTo(t, batch, items, at, i + 1, t2, rs + [r], if r.inserted then hits else hits + 1)
  {
    assert items[..i + 1][..i] == items[..i];
    HitsStep(rs, InsertOne(t1, batch, items[i], at).1);
  }

  predicate Acceptable(items: seq<CreateItem>) {
    0 < |items| <= MAX_ITEMS && AllValid(items)
  }

  function BatchOf(t: Table, items: seq<CreateItem>): Option<nat> {
    if |items| > 1 then Some(t.nextBatch) else None
  }

  function WithBatch(t: Table, items: seq<CreateItem>): Table {
    if |items| > 1 then t.(batches := t.batches[t.nextBatch := |items|], nextBatch := t.nextBatch + 1) else t
  }

  /** The effect of a committed request. */
  function Create(t: Table, items: seq<CreateItem>, at: int): (r: (Table, seq<Result>))
    requires Acceptable(items)
    ensures |r.1| == |items|
  {
    InsertAll(WithBatch(t, items), BatchOf(t, items), items, at)
  }

  // ---- the request handler -----------------------------------------------------------------------

  datatype FieldError = FieldError(index: nat, problem: Problem)

  datatype Reply =
    | NoItems
    | TooMany
    | Invalid(errors: seq<FieldError>)
    | Broken
    | Created(batch: Option<nat>, results: seq<Result>, hits: nat)

  /** Every faulty item, in order, each with its first fault. */
  predicate ErrorsOf(errors: seq<FieldError>, items: seq<CreateItem>) {
    ErrorsUpTo(errors, items, |items|)
  }

  predicate ErrorsUpTo(errors: seq<FieldError>, items: seq<CreateItem>, n: nat)
    requires n <= |items|
  {
    && (forall k :: 0 <= k < |errors| ==>
          errors[k].index < n && Validated(items, errors[k].index, Some(errors[k].problem)))
    && (forall j, k :: 0 <= j < k < |errors| ==> errors[j].index < errors[k].index)
    && (forall i :: 0 <= i < n ==> Validated(items, i, None) || Listed(errors, i))
  }

  predicate Validated(items: seq<CreateItem>, i: nat, problem: Option<Problem>)
    requires i < |items|
  {
    Validate(items[i]) == problem
  }

  predicate Listed(errors: seq<FieldError>, i: nat) {
    exists k :: 0 <= k < |errors| && errors[k].index == i
  }

  lemma StillListed(errors: seq<FieldError>, e: FieldError)
    ensures Listed(errors + [e], e.index) && forall i :: Listed(errors, i) ==> Listed(errors + [e], i)
  {
    var more := errors + [e];
    assert more[|errors|] == e;
    forall i | Listed(errors, i) ensures Listed(more, i) {
      var k :| 0 <= k < |errors| && errors[k].index == i;
      assert more[k] == errors[k];
    }
  }

  lemma OneMoreError(errors: seq<FieldError>, items: seq<CreateItem>, n: nat, problem: Option<Problem>)
    requires n < |items| && ErrorsUpTo(errors, items, n) && Validated(items, n, problem)
    ensures ErrorsUpTo(if problem.Some? then errors + [FieldError(n, problem.value)] else errors, items, n + 1)
  {
    if problem.Some? {
      StillListed(errors, FieldError(n, problem.value));
    }
  }

  lemma NoneListed(items: seq<CreateItem>)
    requires ErrorsOf([], items)
    ensures AllValid(items)
  {
    forall i | 0 <= i < |items| ensures Validate(items[i]).None? {
      assert Validated(items, i, None) || Listed([], i);
    }
  }

  /** Whether each database call of the transaction succeeds, and how its commit ends. */
  datatype TxCalls = TxCalls(begin: bool, batch: bool, insert: nat -> bool, commit: Db)

  predicate ItemsWork(tx: TxCalls, n: nat) {
    forall i :: 0 <= i < n ==> tx.insert(i)
  }

  /** Every call before the commit succeeds. */
  predicate CallsWork(items: seq<CreateItem>, tx: TxCalls) {
    tx.begin && (|items| > 1 ==> tx.batch) && ItemsWork(tx, |items|)
  }

  /** The request takes effect. */
  predicate Commits(items: seq<CreateItem>, tx: TxCalls) {
    Acceptable(items) && CallsWork(items, tx) && tx.commit != Fault(false)
  }

  class Database {
    var table: Table

    constructor (t: Table)
      ensures table == t
    {
      table := t;
    }

    method CreateBatch(count: nat) returns (id: nat)
      modifies this
      ensures id == old(table.nextBatch)
      ensures table == old(table).(batches := old(table.batches)[id := count], nextBatch := id + 1)
    {
      id := table.nextBatch;
      table := table.(batches := table.batches[id := count], nextBatch := id + 1);
    }

    method InsertNotification(batch: Option<nat>, item: CreateItem, at: int) returns (r: Result)
      requires Validate(item).None?
      modifies this
      ensures (table, r) == InsertOne(old(table), batch, item, at)
    {
      var key := KeyOf(item);
      if key.Some? && key.value in table.keys {
        return Result(table.keys[key.value], false);
      }
      var id := table.nextId;
      table := table.(rows := table.rows[id := ToRow(item, batch, at)], nextId := id + 1);
      if key.Some? {
        table := table.(keys := table.keys[key.value := id]);
      }
      return Result(id, true);
    }

    method CheckItems(items: seq<CreateItem>) returns (errors: seq<FieldError>)
      ensures ErrorsOf(errors, items)
    {
      errors := [];
      for i := 0 to |items|
        invariant ErrorsUpTo(errors, items, i)
      {
        var problem := Validate(items[i]);
        OneMoreError(errors, items, i, problem);
        if problem.Some? {
          errors := errors + [FieldError(i, problem.value)];
        }
      }
    }

    /** The loop over the items; it stops at a failed call. */
    method InsertItems(batch: Option<nat>, items: seq<CreateItem>, at: int, tx: TxCalls)
      returns (ok: bool, results: seq<Result>, hits: nat)
      requires AllValid(items)
      modifies this
      ensures ok <==> ItemsWork(tx, |items|)
      ensures ok ==> (table, results) == InsertAll(old(table), batch, items, at) && hits == Hits(results)
    {
      results, hits := [], 0;
      for i := 0 to |items|
        invariant forall j :: 0 <= j < i ==> tx.insert(j)
        invariant InsertedUpTo(old(table), batch, items, at, i, table, results, hits)
      {
        if !tx.insert(i) {
          return false, results, hits;
        }
        InsertStep(old(table), batch, items, at, i, table, results, hits);
        var r := InsertNotification(batch, items[i], at);
        hits := if r.inserted then hits else hits + 1;
        results := results + [r];
      }
      assert items[..|items|] == items;
      return true, results, hits;
    }

    /** The transaction: a failed call rolls everything back, and a failed commit reports an error
        whether or not it took effect. */
    method Transact(items: seq<CreateItem>, at: int, tx: TxCalls) returns (reply: Reply)
      requires Acceptable(items)
      modifies this
      ensures reply.Broken? || reply.Created?
      ensures reply.Created? <==> CallsWork(items, tx) && tx.commit.Fine?
      ensures CallsWork(items, tx) && tx.commit != Fault(false) ==> table == Create(old(table), items, at).0
      ensures !CallsWork(items, tx) || tx.commit == Fault(false) ==> table == old(table)
      ensures reply.Created? ==>
                && reply.results == Create(old(table), items, at).1
                && reply.batch == BatchOf(old(table), items) && reply.hits == Hits(reply.results)
    {
      if !tx.begin {
        return Broken;
      }
      var saved := table;
      var batch := None;
      if |items| > 1 {
        if !tx.batch {
          return Broken;
        }
        var id := CreateBatch(|items|);
        batch := Some(id);
      }
      var ok, results, hits := InsertItems(batch, items, at, tx);
      if !ok || tx.commit == Fault(false) {
        table := saved;
        return Broken;
      }
      if tx.commit == Fault(true) {
        return Broken;
      }
      return Created(batch, results, hits);
    }

    /** A commit that reports an error may have taken effect all the same. */
    method CreateNotifications(items: seq<CreateItem>, at: int, tx: TxCalls) returns (reply: Reply)
      modifies this
      ensures reply.NoItems? <==> items == []
      ensures reply.TooMany? <==> |items| > 1000
      ensures reply.Invalid? <==> 0 < |items| <= 1000 && !AllValid(items)
      ensures reply.Invalid? ==> ErrorsOf(reply.errors, items)
      ensures reply.Created? <==> Commits(items, tx) && tx.commit.Fine?
      ensures reply.Created? ==> (reply.batch.Some? <==> |items| > 1)
      ensures Commits(items, tx) ==> table == Create(old(table), items, at).0
      ensures !Commits(items, tx) ==> table == old(table)
      ensures reply.Created? ==>
                && reply.results == Create(old(table), items, at).1
                && reply.batch == BatchOf(old(table), items) && reply.hits == Hits(reply.results)
    {
      if |items| == 0 {
        return NoItems;
      }
      if |items| > MAX_ITEMS {
        return TooMany;
      }
      var errors := CheckItems(items);
      if |errors| > 0 {
        assert Validated(items, errors[0].index, Some(errors[0].problem));
        return Invalid(errors);
      }
      NoneListed(items);
      reply := Transact(items, at, tx);
    }
  }
}
