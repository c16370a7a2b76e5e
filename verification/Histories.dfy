/** Idempotent creation over any history of committed requests and status changes. */
module Histories {
  import opened Domain
  import opened Validation
  import opened Publishers
  import opened Creation
  import Safety

  // ---- one item --------------------------------------------------------------------------------

  /** Old rows and keys are kept; anything new is a pending row of this batch with a new id. */
  ghost predicate Extends(t: Table, t': Table, batch: Option<nat>) {
    && t.nextId <= t'.nextId && t'.batches == t.batches && t'.nextBatch == t.nextBatch
    && (forall id :: id in t.rows ==> id in t'.rows && t'.rows[id] == t.rows[id])
    && (forall k :: k in t.keys ==> k in t'.keys && t'.keys[k] == t.keys[k])
    && (forall id :: id in t'.rows && id !in t.rows ==> id >= t.nextId && New(t'.rows[id], batch))
  }

  predicate New(row: Row, batch: Option<nat>) {
    row.status.Pending? && row.provider.None? && row.batch == batch
  }

  predicate KnownBatch(t: Table, batch: Option<nat>) {
    batch.Some? ==> batch.value < t.nextBatch
  }

  lemma OneWellformed(t: Table, batch: Option<nat>, item: CreateItem, at: int)
    requires Wellformed(t) && KnownBatch(t, batch) && Validate(item).None?
    ensures Wellformed(InsertOne(t, batch, item, at).0)
  {
    var (t', r) := InsertOne(t, batch, item, at);
    if r.inserted {
      assert t'.rows[r.id] == ToRow(item, batch, at);
      forall id | id in t'.rows ensures id < t'.nextId && Indexed(t', id) {
        assert id != r.id ==> Indexed(t, id);
      }
    }
  }

  lemma OneExtends(t: Table, batch: Option<nat>, item: CreateItem, at: int)
    requires Wellformed(t) && Validate(item).None?
    ensures Extends(t, InsertOne(t, batch, item, at).0, batch)
  {
  }

  lemma OneMore(m: map<nat, Row>, id: nat, row: Row)
    requires id !in m
    ensures m[id := row].Keys == m.Keys + {id} && |m[id := row]| == |m| + 1
  {
    var m' := m[id := row];
    assert m'.Keys == m.Keys + {id};
    assert |m'| == |m'.Keys| && |m| == |m.Keys|;
  }

  lemma OneCounts(t: Table, batch: Option<nat>, item: CreateItem, at: int)
    requires Wellformed(t) && Validate(item).None?
    ensures
      var (t', r) := InsertOne(t, batch, item, at);
      && t'.nextId == t.nextId + (if r.inserted then 1 else 0)
      && |t'.rows| == |t.rows| + (if r.inserted then 1 else 0)
      && t'.rows.Keys == t.rows.Keys + {r.id}
  {
    var (t', r) := InsertOne(t, batch, item, at);
    if r.inserted {
      assert t.nextId !in t.rows;
      OneMore(t.rows, t.nextId, ToRow(item, batch, at));
    }
  }

  lemma OneAnswer(t: Table, batch: Option<nat>, item: CreateItem, at: int)
    requires Wellformed(t) && Validate(item).None?
    ensures
      var (t', r) := InsertOne(t, batch, item, at);
      && r.id in t'.rows && (r.inserted <==> r.id !in t.rows) && (r.inserted ==> r.id == t.nextId < t'.nextId)
      && (r.inserted ==> t'.rows[r.id] == ToRow(item, batch, at))
      && (KeyOf(item).Some? ==> KeyOf(item).value in t'.keys && t'.keys[KeyOf(item).value] == r.id)
      && (r.inserted <==> KeyOf(item).None? || KeyOf(item).value !in t.keys)
  {
  }

  // ---- one request -------------------------------------------------------------------------------

  lemma {:induction false} AllExtend(t: Table, batch: Option<nat>, items: seq<CreateItem>, at: int)
    requires Wellformed(t) && KnownBatch(t, batch) && AllValid(items)
    ensures
      var (t', rs) := InsertAll(t, batch, items, at);
      && Wellformed(t') && Extends(t, t', batch)
      && t'.nextId + Hits(rs) == t.nextId + |items|
      && |t'.rows| + Hits(rs) == |t.rows| + |items|
  {
    if items != [] {
      var front := items[..|items| - 1];
      AllExtend(t, batch, front, at);
      var (t1, rs1) := InsertAll(t, batch, front, at);
      OneWellformed(t1, batch, items[|items| - 1], at);
      OneExtends(t1, batch, items[|items| - 1], at);
      OneCounts(t1, batch, items[|items| - 1], at);
      var (t2, r) := InsertOne(t1, batch, items[|items| - 1], at);
      assert (rs1 + [r])[..|items| - 1] == rs1;
    }
  }

  /** What item p of the request is answered with: its id is a row, with the item's key, and it is
      inserted exactly when neither the table nor an earlier item had it. */
  ghost predicate Answered(
    t: Table, t': Table, batch: Option<nat>, items: seq<CreateItem>, rs: seq<Result>, at: int, p: nat)
    requires p < |items| == |rs| && AllValid(items)
  {
    && rs[p].id in t'.rows && (rs[p].id in t.rows ==> !rs[p].inserted)
    && (rs[p].inserted ==> t.nextId <= rs[p].id < t'.nextId && t'.rows[rs[p].id] == ToRow(items[p], batch, at))
    && (KeyOf(items[p]).Some? ==> KeyOf(items[p]).value in t'.keys && t'.keys[KeyOf(items[p]).value] == rs[p].id)
    && (KeyOf(items[p]).Some? && KeyOf(items[p]).value in t.keys ==> !rs[p].inserted)
    && (KeyOf(items[p]).None? ==> rs[p].inserted)
  }

  lemma LastAnswered(t: Table, batch: Option<nat>, items: seq<CreateItem>, at: int)
    requires Wellformed(t) && KnownBatch(t, batch) && AllValid(items) && items != []
    ensures var (t', rs) := InsertAll(t, batch, items, at); Answered(t, t', batch, items, rs, at, |items| - 1)
  {
    var front := items[..|items| - 1];
    AllExtend(t, batch, front, at);
    OneAnswer(InsertAll(t, batch, front, at).0, batch, items[|items| - 1], at);
  }

  lemma LastStep(t: Table, batch: Option<nat>, items: seq<CreateItem>, at: int)
    requires AllValid(items) && items != []
    ensures
      var (t1, rs1) := InsertAll(t, batch, items[..|items| - 1], at);
      var (t2, r) := InsertOne(t1, batch, items[|items| - 1], at);
      InsertAll(t, batch, items, at) == (t2, rs1 + [r])
  {
  }

  lemma {:induction false} AllAnswered(t: Table, batch: Option<nat>, items: seq<CreateItem>, at: int, p: nat)
    requires Wellformed(t) && KnownBatch(t, batch) && AllValid(items) && p < |items|
    ensures var (t', rs) := InsertAll(t, batch, items, at); Answered(t, t', batch, items, rs, at, p)
    decreases |items|
  {
    if p < |items| - 1 {
      AllExtend(t, batch, items[..|items| - 1], at);
      AllAnswered(t, batch, items[..|items| - 1], at, p);
      LastStep(t, batch, items, at);
      var (t1, rs1) := InsertAll(t, batch, items[..|items| - 1], at);
      var (t2, rs) := InsertAll(t, batch, items, at);
      OneExtends(t1, batch, items[|items| - 1], at);
    } else {
      LastAnswered(t, batch, items, at);
    }
  }

  lemma LastDiffers(t: Table, batch: Option<nat>, items: seq<CreateItem>, at: int, p: nat)
    requires Wellformed(t) && KnownBatch(t, batch) && AllValid(items) && p + 1 < |items|
    ensures
      var (t1, rs1) := InsertAll(t, batch, items[..|items| - 1], at);
      var (t2, r) := InsertOne(t1, batch, items[|items| - 1], at);
      r.inserted ==> rs1[p].id != r.id
  {
    var front := items[..|items| - 1];
    AllExtend(t, batch, front, at);
    AllAnswered(t, batch, front, at, p);
    OneAnswer(InsertAll(t, batch, front, at).0, batch, items[|items| - 1], at);
  }

  /** Different positions of one request never report the same row inserted. */
  lemma {:induction false} InsertsDiffer(t: Table, batch: Option<nat>, items: seq<CreateItem>, at: int, p: nat, q: nat)
    requires Wellformed(t) && KnownBatch(t, batch) && AllValid(items) && p < q < |items|
    ensures
      var rs := InsertAll(t, batch, items, at).1;
      rs[p].inserted && rs[q].inserted ==> rs[p].id != rs[q].id
    decreases |items|
  {
    LastStep(t, batch, items, at);
    if q < |items| - 1 {
      InsertsDiffer(t, batch, items[..|items| - 1], at, p, q);
    } else {
      LastDiffers(t, batch, items, at, p);
    }
  }

  /** Every row that is new after the request is reported inserted by one of its items. */
  lemma {:induction false} NewIsReported(t: Table, batch: Option<nat>, items: seq<CreateItem>, at: int, id: nat)
    returns (p: nat)
    requires Wellformed(t) && KnownBatch(t, batch) && AllValid(items)
    requires id in InsertAll(t, batch, items, at).0.rows && id !in t.rows
    ensures p < |items| && InsertAll(t, batch, items, at).1[p] == Result(id, true)
    decreases |items|
  {
    var last := |items| - 1;
    var front := items[..last];
    AllExtend(t, batch, front, at);
    var (t1, rs1) := InsertAll(t, batch, front, at);
    OneAnswer(t1, batch, items[last], at);
    OneCounts(t1, batch, items[last], at);
    if id in t1.rows {
      p := NewIsReported(t, batch, front, at, id);
    } else {
      p := last;
    }
  }

  lemma BatchWellformed(t: Table, items: seq<CreateItem>)
    requires Wellformed(t)
    ensures Wellformed(WithBatch(t, items)) && KnownBatch(WithBatch(t, items), BatchOf(t, items))
  {
    forall id | id in t.rows ensures Indexed(WithBatch(t, items), id) {
      assert Indexed(t, id);
    }
  }

  /** A row reported inserted is a new row with the accepted item's columns. */
  lemma CreatedRow(t: Table, items: seq<CreateItem>, at: int, p: nat)
    requires Wellformed(t) && Acceptable(items) && p < |items|
    ensures
      var (t', rs) := Create(t, items, at);
      rs[p].inserted ==>
        rs[p].id in t'.rows && rs[p].id !in t.rows && t'.rows[rs[p].id] == ToRow(items[p], BatchOf(t, items), at)
  {
    BatchWellformed(t, items);
    AllAnswered(WithBatch(t, items), BatchOf(t, items), items, at, p);
  }

  /** A new row has a new id, is pending, and is reported inserted. */
  lemma NewRow(t: Table, items: seq<CreateItem>, at: int, id: nat) returns (p: nat)
    requires Wellformed(t) && Acceptable(items) && id in Create(t, items, at).0.rows && id !in t.rows
    ensures id >= t.nextId && New(Create(t, items, at).0.rows[id], BatchOf(t, items))
    ensures p < |items| && Create(t, items, at).1[p] == Result(id, true)
  {
    BatchWellformed(t, items);
    AllExtend(WithBatch(t, items), BatchOf(t, items), items, at);
    p := NewIsReported(WithBatch(t, items), BatchOf(t, items), items, at, id);
  }

  lemma LastIsKnown(t: Table, batch: Option<nat>, items: seq<CreateItem>, at: int) returns (q: nat)
    requires Wellformed(t) && KnownBatch(t, batch) && AllValid(items) && items != []
    ensures
      var rs := InsertAll(t, batch, items, at).1;
      var id := rs[|items| - 1].id;
      id in t.rows || (q < |items| && rs[q] == Result(id, true))
  {
    q := 0;
    AllAnswered(t, batch, items, at, |items| - 1);
    var id := InsertAll(t, batch, items, at).1[|items| - 1].id;
    if id !in t.rows {
      q := NewIsReported(t, batch, items, at, id);
    }
  }

  /** The row an item is answered with was there before the request, or an item at or before this
      one inserted it. */
  lemma HitIsKnown(t: Table, batch: Option<nat>, items: seq<CreateItem>, at: int, p: nat) returns (q: nat)
    requires Wellformed(t) && KnownBatch(t, batch) && AllValid(items) && p < |items|
    ensures
      var rs := InsertAll(t, batch, items, at).1;
      rs[p].id in t.rows || (q <= p && rs[q] == Result(rs[p].id, true))
  {
    PrefixResults(t, batch, items, at, p + 1);
    q := LastIsKnown(t, batch, items[..p + 1], at);
  }

  lemma {:induction false} PrefixResults(t: Table, batch: Option<nat>, items: seq<CreateItem>, at: int, n: nat)
    requires AllValid(items) && n <= |items|
    ensures InsertAll(t, batch, items[..n], at).1 == InsertAll(t, batch, items, at).1[..n]
    decreases |items|
  {
    if n == |items| {
      assert items[..n] == items;
    } else {
      var front := items[..|items| - 1];
      PrefixResults(t, batch, front, at, n);
      assert front[..n] == items[..n];
    }
  }

  /** If every item's key is bound already, nothing is inserted and nothing changes. */
  lemma {:induction false} AllHits(t: Table, batch: Option<nat>, items: seq<CreateItem>, at: int)
    requires AllValid(items)
    requires forall p :: 0 <= p < |items| ==> KeyOf(items[p]).Some? && KeyOf(items[p]).value in t.keys
    ensures
      var (t', rs) := InsertAll(t, batch, items, at);
      && t' == t && Hits(rs) == |items|
      && forall p :: 0 <= p < |items| ==> rs[p] == Result(t.keys[KeyOf(items[p]).value], false)
  {
    if items != [] {
      var last := |items| - 1;
      AllHits(t, batch, items[..last], at);
      LastStep(t, batch, items, at);
      var rs1 := InsertAll(t, batch, items[..last], at).1;
      var r := Result(t.keys[KeyOf(items[last]).value], false);
      HitsStep(rs1, r);
      forall p | 0 <= p < |items| ensures (rs1 + [r])[p] == Result(t.keys[KeyOf(items[p]).value], false) {
        assert p < last ==> items[..last][p] == items[p];
      }
    }
  }

  // ---- batches --------------------------------------------------------------------------------------

  function BatchRows(t: Table, b: nat): set<nat> {
    set id | id in t.rows && t.rows[id].batch == Some(b)
  }

  lemma OneMoreInBatch(t: Table, t': Table, b: nat, id: nat)
    requires id !in t.rows && id in t'.rows && t'.rows[id].batch == Some(b) && t'.rows == t.rows[id := t'.rows[id]]
    ensures |BatchRows(t', b)| == |BatchRows(t, b)| + 1
  {
    assert BatchRows(t', b) == BatchRows(t, b) + {id};
  }

  lemma OneInBatch(t: Table, b: nat, item: CreateItem, at: int)
    requires Wellformed(t) && Validate(item).None?
    ensures
      var (t', r) := InsertOne(t, Some(b), item, at);
      |BatchRows(t', b)| == |BatchRows(t, b)| + if r.inserted then 1 else 0
  {
    var (t', r) := InsertOne(t, Some(b), item, at);
    if r.inserted {
      assert t.nextId !in t.rows;
      OneMoreInBatch(t, t', b, t.nextId);
    }
  }

  lemma {:induction false} BatchGrows(t: Table, b: nat, items: seq<CreateItem>, at: int)
    requires Wellformed(t) && b < t.nextBatch && AllValid(items)
    ensures
      var (t', rs) := InsertAll(t, Some(b), items, at);
      |BatchRows(t', b)| + Hits(rs) == |BatchRows(t, b)| + |items|
  {
    if items != [] {
      var front := items[..|items| - 1];
      BatchGrows(t, b, front, at);
      AllExtend(t, Some(b), front, at);
      var (t1, rs1) := InsertAll(t, Some(b), front, at);
      OneInBatch(t1, b, items[|items| - 1], at);
      var r := InsertOne(t1, Some(b), items[|items| - 1], at).1;
      assert (rs1 + [r])[..|items| - 1] == rs1;
    }
  }

  // ---- histories --------------------------------------------------------------------------------------

  /** A committed request, or a guarded UPDATE of one row. */
  datatype Event = Request(items: seq<CreateItem>, at: int) | Moved(id: nat, u: Update)

  predicate CanHappen(e: Event) {
    e.Request? ==> Acceptable(e.items)
  }

  function After(t: Table, e: Event): Table
    requires CanHappen(e)
  {
    match e
    case Request(items, at) => Create(t, items, at).0
    case Moved(id, u) => if id in t.rows then t.(rows := t.rows[id := Exec(u, t.rows[id])]) else t
  }

  /** tables[i] is the table before events[i]. */
  ghost predicate History(tables: seq<Table>, events: seq<Event>) {
    && |tables| == |events| + 1 && tables[0] == EMPTY
    && forall i :: 0 <= i < |events| ==> CanHappen(events[i]) && tables[i + 1] == After(tables[i], events[i])
  }

  /** Rows stay under their id with everything but the status and the provider id, and keys stay bound. */
  ghost predicate Lasts(t: Table, t': Table) {
    && t.nextId <= t'.nextId && t.nextBatch <= t'.nextBatch
    && (forall id :: id in t.rows ==> id in t'.rows && Safety.RowMoves(t.rows[id], t'.rows[id]))
    && (forall k :: k in t.keys ==> k in t'.keys && t'.keys[k] == t.keys[k])
    && (forall b :: b in t.batches ==> b in t'.batches && t'.batches[b] == t.batches[b])
    && (forall id :: id in t'.rows && id !in t.rows ==>
          id >= t.nextId && (t'.rows[id].batch.Some? ==> t'.rows[id].batch.value >= t.nextBatch))
  }

  lemma MovedLasts(t: Table, id: nat, u: Update)
    requires Wellformed(t)
    ensures Wellformed(After(t, Moved(id, u))) && Lasts(t, After(t, Moved(id, u)))
  {
    if id in t.rows {
      assert Safety.RowMoves(t.rows[id], Exec(u, t.rows[id]));
    }
  }

  lemma CreateExtends(t: Table, items: seq<CreateItem>, at: int)
    requires Wellformed(t) && Acceptable(items)
    ensures Wellformed(Create(t, items, at).0)
    ensures Extends(WithBatch(t, items), Create(t, items, at).0, BatchOf(t, items))
  {
    BatchWellformed(t, items);
    AllExtend(WithBatch(t, items), BatchOf(t, items), items, at);
  }

  lemma RequestLasts(t: Table, items: seq<CreateItem>, at: int)
    requires Wellformed(t) && Acceptable(items)
    ensures Wellformed(Create(t, items, at).0) && Lasts(t, Create(t, items, at).0)
  {
    CreateExtends(t, items, at);
  }

  lemma EventLasts(t: Table, e: Event)
    requires Wellformed(t) && CanHappen(e)
    ensures Wellformed(After(t, e)) && Lasts(t, After(t, e))
  {
    match e
    case Request(items, at) => RequestLasts(t, items, at);
    case Moved(id, u) => MovedLasts(t, id, u);
  }

  lemma {:induction false} AllWellformed(tables: seq<Table>, events: seq<Event>, i: nat)
    requires History(tables, events) && i < |tables|
    ensures Wellformed(tables[i])
  {
    if i > 0 {
      AllWellformed(tables, events, i - 1);
      EventLasts(tables[i - 1], events[i - 1]);
    }
  }

  lemma {:induction false} Lasting(tables: seq<Table>, events: seq<Event>, i: nat, j: nat)
    requires History(tables, events) && i <= j < |tables|
    ensures Lasts(tables[i], tables[j])
  {
    if i < j {
      Lasting(tables, events, i, j - 1);
      AllWellformed(tables, events, j - 1);
      EventLasts(tables[j - 1], events[j - 1]);
    }
  }

  /** A key, once bound, stays bound to the same row forever, and that row keeps the key. */
  lemma KeyForever(tables: seq<Table>, events: seq<Event>, i: nat, j: nat, key: string)
    requires History(tables, events) && i <= j < |tables| && key in tables[i].keys
    ensures key in tables[j].keys && tables[j].keys[key] == tables[i].keys[key]
    ensures tables[j].keys[key] in tables[j].rows && tables[j].rows[tables[j].keys[key]].key == Some(key)
  {
    Lasting(tables, events, i, j);
    AllWellformed(tables, events, j);
  }

  /** Two rows never have the same key. */
  lemma KeyUnique(tables: seq<Table>, events: seq<Event>, i: nat, a: nat, b: nat)
    requires History(tables, events) && i < |tables| && a in tables[i].rows && b in tables[i].rows
    requires tables[i].rows[a].key.Some? && tables[i].rows[a].key == tables[i].rows[b].key
    ensures a == b
  {
    AllWellformed(tables, events, i);
    assert Indexed(tables[i], a) && Indexed(tables[i], b);
  }

  ghost function ResultsAt(tables: seq<Table>, events: seq<Event>, r: nat): (rs: seq<Result>)
    requires History(tables, events) && r < |events| && events[r].Request?
    ensures |rs| == |events[r].items|
  {
    Create(tables[r], events[r].items, events[r].at).1
  }

  ghost function Items(tables: seq<Table>, events: seq<Event>, i: nat): nat
    requires History(tables, events) && i <= |events|
  {
    if i == 0 then 0
    else Items(tables, events, i - 1) + if events[i - 1].Request? then |events[i - 1].items| else 0
  }

  ghost function AllHitsOf(tables: seq<Table>, events: seq<Event>, i: nat): nat
    requires History(tables, events) && i <= |events|
  {
    if i == 0 then 0
    else AllHitsOf(tables, events, i - 1) + if events[i - 1].Request? then Hits(ResultsAt(tables, events, i - 1)) else 0
  }

  /** Conservation: the rows are the items of all requests less the idempotent hits. */
  lemma {:induction false} RowsAreItemsLessHits(tables: seq<Table>, events: seq<Event>, i: nat)
    requires History(tables, events) && i < |tables|
    ensures |tables[i].rows| + AllHitsOf(tables, events, i) == Items(tables, events, i)
  {
    if i > 0 {
      RowsAreItemsLessHits(tables, events, i - 1);
      AllWellformed(tables, events, i - 1);
      RowsGrow(tables[i - 1], events[i - 1]);
    }
  }

  lemma RowsGrow(t: Table, e: Event)
    requires Wellformed(t) && CanHappen(e)
    ensures e.Request? ==> |After(t, e).rows| + Hits(Create(t, e.items, e.at).1) == |t.rows| + |e.items|
    ensures e.Moved? ==> |After(t, e).rows| == |t.rows|
  {
    match e
    case Request(items, at) => AllExtend(WithBatch(t, items), BatchOf(t, items), items, at);
    case Moved(id, u) =>
      assert After(t, e).rows.Keys == t.rows.Keys;
      assert |After(t, e).rows| == |After(t, e).rows.Keys| && |t.rows| == |t.rows.Keys|;
  }

  /** Request r reports row id inserted at position p. */
  ghost predicate Inserts(tables: seq<Table>, events: seq<Event>, r: nat, p: nat, id: nat)
    requires History(tables, events)
  {
    r < |events| && events[r].Request? && p < |events[r].items| && ResultsAt(tables, events, r)[p] == Result(id, true)
  }

  lemma InsertsFacts(tables: seq<Table>, events: seq<Event>, r: nat, p: nat, id: nat)
    requires History(tables, events) && Inserts(tables, events, r, p, id)
    ensures id !in tables[r].rows && id in tables[r + 1].rows
    ensures tables[r].nextId <= id < tables[r + 1].nextId
    ensures AllValid(events[r].items)
    ensures tables[r + 1].rows[id] == ToRow(events[r].items[p], BatchOf(tables[r], events[r].items), events[r].at)
  {
    AllWellformed(tables, events, r);
    var t, items := tables[r], events[r].items;
    assert CanHappen(events[r]);
    AllAnswered(WithBatch(t, items), BatchOf(t, items), items, events[r].at, p);
  }

  /** Every row was reported inserted by a request ... */
  lemma {:induction false} EveryRowInserted(tables: seq<Table>, events: seq<Event>, i: nat, id: nat)
    returns (r: nat, p: nat)
    requires History(tables, events) && i < |tables| && id in tables[i].rows
    ensures r < i && Inserts(tables, events, r, p, id)
  {
    assert i > 0;
    if id in tables[i - 1].rows {
      r, p := EveryRowInserted(tables, events, i - 1, id);
    } else {
      r := i - 1;
      p := InsertedBy(tables, events, i - 1, id);
    }
  }

  lemma InsertedBy(tables: seq<Table>, events: seq<Event>, r: nat, id: nat) returns (p: nat)
    requires History(tables, events) && r < |events| && id !in tables[r].rows && id in tables[r + 1].rows
    ensures Inserts(tables, events, r, p, id)
  {
    AllWellformed(tables, events, r);
    assert CanHappen(events[r]) && tables[r + 1] == After(tables[r], events[r]);
    p := NewRow(tables[r], events[r].items, events[r].at, id);
  }

  /** ... by one request only, and at one position of it: exactly one request publishes it. */
  lemma InsertedOnce(tables: seq<Table>, events: seq<Event>, r: nat, p: nat, s: nat, q: nat, id: nat)
    requires History(tables, events) && Inserts(tables, events, r, p, id) && Inserts(tables, events, s, q, id)
    ensures r == s && p == q
  {
    InsertsFacts(tables, events, r, p, id);
    InsertsFacts(tables, events, s, q, id);
    if r < s {
      Lasting(tables, events, r + 1, s);
    } else if s < r {
      Lasting(tables, events, s + 1, r);
    } else {
      OneReport(tables, events, r, p, q, id);
    }
  }

  lemma OneReport(tables: seq<Table>, events: seq<Event>, r: nat, p: nat, q: nat, id: nat)
    requires History(tables, events) && Inserts(tables, events, r, p, id) && Inserts(tables, events, r, q, id)
    ensures p == q
  {
    AllWellformed(tables, events, r);
    var t, items := tables[r], events[r].items;
    assert CanHappen(events[r]);
    if p < q {
      InsertsDiffer(WithBatch(t, items), BatchOf(t, items), items, events[r].at, p, q);
    } else if q < p {
      InsertsDiffer(WithBatch(t, items), BatchOf(t, items), items, events[r].at, q, p);
    }
  }

  predicate Keyed(items: seq<CreateItem>) {
    forall p :: 0 <= p < |items| ==> KeyOf(items[p]).Some?
  }

  /** A fully keyed request sent again to a table that developed from the one it was first sent to
      inserts nothing, changes no row, and answers with the same ids. */
  lemma ReplayLater(t: Table, items: seq<CreateItem>, at: int, t1: Table, t2: Table, at2: int)
    requires Wellformed(t) && Acceptable(items) && Keyed(items) && t1 == Create(t, items, at).0 && Lasts(t1, t2)
    ensures
      var (t3, rs) := Create(t2, items, at2);
      && t3.rows == t2.rows && t3.keys == t2.keys && Hits(rs) == |items|
      && forall p :: 0 <= p < |items| ==> rs[p] == Result(Create(t, items, at).1[p].id, false)
  {
    BatchWellformed(t, items);
    var rs := Create(t, items, at).1;
    forall p | 0 <= p < |items|
      ensures KeyOf(items[p]).value in t2.keys && t2.keys[KeyOf(items[p]).value] == rs[p].id
    {
      AllAnswered(WithBatch(t, items), BatchOf(t, items), items, at, p);
    }
    AllHits(WithBatch(t2, items), BatchOf(t2, items), items, at2);
  }

  /** Sending a fully keyed request again, at any later time and whatever happened in between,
      inserts nothing, changes no row, and answers with the same ids. */
  lemma Replay(tables: seq<Table>, events: seq<Event>, r: nat, j: nat, at: int)
    requires History(tables, events) && r < j < |tables| && events[r].Request? && Keyed(events[r].items)
    ensures Acceptable(events[r].items)
    ensures
      var items := events[r].items;
      var (t', rs) := Create(tables[j], items, at);
      && t'.rows == tables[j].rows && t'.keys == tables[j].keys && Hits(rs) == |items|
      && forall p :: 0 <= p < |items| ==> rs[p] == Result(ResultsAt(tables, events, r)[p].id, false)
  {
    AllWellformed(tables, events, r);
    assert CanHappen(events[r]) && tables[r + 1] == After(tables[r], events[r]);
    Lasting(tables, events, r + 1, j);
    ReplayLater(tables[r], events[r].items, events[r].at, tables[r + 1], tables[j], at);
  }

  lemma BatchAtFirst(t: Table, items: seq<CreateItem>, at: int)
    requires Wellformed(t) && Acceptable(items) && |items| > 1
    ensures
      var (t', rs) := Create(t, items, at);
      && |BatchRows(t', t.nextBatch)| + Hits(rs) == |items| && t'.nextBatch == t.nextBatch + 1
      && t'.batches == t.batches[t.nextBatch := |items|]
  {
    var t0 := WithBatch(t, items);
    BatchWellformed(t, items);
    assert BatchRows(t0, t.nextBatch) == {};
    BatchGrows(t0, t.nextBatch, items, at);
    AllExtend(t0, Some(t.nextBatch), items, at);
  }

  lemma BatchKept(t: Table, t': Table, b: nat)
    requires Lasts(t, t') && b < t.nextBatch
    ensures BatchRows(t', b) == BatchRows(t, b)
  {
    forall id ensures id in BatchRows(t', b) <==> id in BatchRows(t, b) {
      if id in t.rows {
        assert Safety.RowMoves(t.rows[id], t'.rows[id]);
      }
    }
  }

  /** At every later time a batch's recorded count is its request's number of items, and it holds
      that many rows less the request's hits: exactly the count when there was no hit. */
  lemma BatchSize(tables: seq<Table>, events: seq<Event>, r: nat, j: nat)
    requires History(tables, events) && r < j < |tables| && events[r].Request? && |events[r].items| > 1
    ensures
      var b := tables[r].nextBatch;
      var hits := Hits(ResultsAt(tables, events, r));
      && b in tables[j].batches && tables[j].batches[b] == |events[r].items|
      && |BatchRows(tables[j], b)| + hits == tables[j].batches[b]
      && (|BatchRows(tables[j], b)| == tables[j].batches[b] <==> hits == 0)
  {
    AllWellformed(tables, events, r);
    assert CanHappen(events[r]) && tables[r + 1] == After(tables[r], events[r]);
    BatchAtFirst(tables[r], events[r].items, events[r].at);
    Lasting(tables, events, r + 1, j);
    BatchKept(tables[r + 1], tables[j], tables[r].nextBatch);
  }

  /** The results handed to the publish loop name each inserted row once. */
  lemma ResultsDistinct(t: Table, items: seq<CreateItem>, at: int)
    requires Wellformed(t) && Acceptable(items)
    ensures DistinctInserts(Create(t, items, at).1)
  {
    var rs := Create(t, items, at).1;
    forall p, q | 0 <= p < q < |rs| && rs[p].inserted && rs[q].inserted ensures rs[p].id != rs[q].id {
      InsertsDiffer(WithBatch(t, items), BatchOf(t, items), items, at, p, q);
    }
  }
}
