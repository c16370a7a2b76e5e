/** Listing notifications page by page, newest first, with a cursor that is a position. */
module Listing {
  import opened Domain

  type Rows = map<nat, Row>

  /** Row ids are ordered as their text is; a number stands for an id. */
  datatype Pos = Pos(at: int, id: nat)

  /** a is listed before b. */
  predicate Above(a: Pos, b: Pos) {
    a.at > b.at || (a.at == b.at && a.id > b.id)
  }

  datatype Filter = Filter(status: Option<Status>, channel: Option<Channel>, from: Option<int>, to: Option<int>)

  predicate Matches(f: Filter, row: Row) {
    && (f.status.Some? ==> row.status == f.status.value)
    && (f.channel.Some? ==> row.channel == f.channel.value)
    && (f.from.Some? ==> row.createdAt >= f.from.value)
    && (f.to.Some? ==> row.createdAt <= f.to.value)
  }

  function PosOf(t: Rows, id: nat): Pos
    requires id in t
  {
    Pos(t[id].createdAt, id)
  }

  predicate Below(cursor: Option<Pos>, p: Pos) {
    cursor.Some? ==> Above(cursor.value, p)
  }

  /** The rows the WHERE clause selects. */
  function Selected(t: Rows, f: Filter, cursor: Option<Pos>): set<nat> {
    set id | id in t && Matches(f, t[id]) && Below(cursor, PosOf(t, id))
  }

  predicate Sorted(r: seq<nat>, t: Rows) {
    && (forall i :: 0 <= i < |r| ==> r[i] in t)
    && (forall i, j :: 0 <= i < j < |r| ==> Above(PosOf(t, r[i]), PosOf(t, r[j])))
  }

  /** r lists exactly the rows in s, newest first. */
  ghost predicate Orders(r: seq<nat>, s: set<nat>, t: Rows) {
    Sorted(r, t) && forall x :: x in r <==> x in s
  }

  predicate IsTop(x: nat, s: set<nat>, t: Rows) {
    x in s && x in t && forall y :: y in s && y in t && y != x ==> Above(PosOf(t, x), PosOf(t, y))
  }

  lemma {:induction false} TopExists(s: set<nat>, t: Rows) returns (x: nat)
    requires s != {} && s <= t.Keys
    ensures IsTop(x, s, t)
    decreases s
  {
    var any :| any in s;
    x := any;
    assert forall y :: y in s && y != any ==> y in s - {any};
    if s - {any} != {} {
      var y := TopExists(s - {any}, t);
      if Above(PosOf(t, y), PosOf(t, any)) {
        x := y;
      }
      forall z | z in s && z != x ensures Above(PosOf(t, x), PosOf(t, z)) {
        assert z == any || z == y || Above(PosOf(t, y), PosOf(t, z));
      }
    }
  }

  /** ORDER BY created_at DESC, id DESC. */
  function Ordered(s: set<nat>, t: Rows): (r: seq<nat>)
    requires s <= t.Keys
    ensures Orders(r, s, t)
    decreases s
  {
    if s == {} then []
    else
      assert exists x :: IsTop(x, s, t) by { var x := TopExists(s, t); }
      var x :| x in s && IsTop(x, s, t);
      [x] + Ordered(s - {x}, t)
  }

  function AtMost(r: seq<nat>, limit: nat): seq<nat> {
    if |r| <= limit then r else r[..limit]
  }

  /** The whole query: WHERE, ORDER BY, LIMIT. */
  function Page(t: Rows, f: Filter, cursor: Option<Pos>, limit: nat): (r: seq<nat>)
    ensures |r| <= limit && Sorted(r, t) && forall x :: x in r ==> x in Selected(t, f, cursor)
  {
    AtMost(Ordered(Selected(t, f, cursor), t), limit)
  }

  function FullListing(t: Rows, f: Filter): seq<nat> {
    Ordered(Selected(t, f, None), t)
  }

  /** What the store does with an out-of-range limit. */
  function Clamp(limit: int): nat {
    if limit <= 0 then 20 else if limit > 100 then 100 else limit
  }

  datatype Item = Item(id: nat, row: Row)

  datatype Response = InvalidLimit | Listed(items: seq<Item>, next: Option<Pos>)

  // ---- the same on the columns ----------------------------------------------------------------------

  /** Created later, or at the same time with the larger id. */
  predicate Newer(t: Rows, x: nat, y: nat)
    requires x in t && y in t
  {
    t[x].createdAt > t[y].createdAt || (t[x].createdAt == t[y].createdAt && x > y)
  }

  predicate NewestFirst(t: Rows, r: seq<nat>) {
    && (forall k :: 0 <= k < |r| ==> r[k] in t)
    && (forall j, k :: 0 <= j < k < |r| ==> Newer(t, r[j], r[k]))
  }

  /** The row has the status and channel asked for, was created within the bounds, which are included,
      and comes after the cursor. */
  predicate AskedFor(t: Rows, f: Filter, cursor: Option<Pos>, x: nat)
    requires x in t
  {
    var row := t[x];
    && f.status in {None, Some(row.status)} && f.channel in {None, Some(row.channel)}
    && (f.from.None? || f.from.value <= row.createdAt) && (f.to.None? || row.createdAt <= f.to.value)
    && (cursor.None? || row.createdAt < cursor.value.at || (row.createdAt == cursor.value.at && x < cursor.value.id))
  }

  /** r has the newest rows asked for, newest first, and at most `limit` of them; rows are left out only
      when it is full, and they are older than all its rows. */
  predicate IsPage(t: Rows, f: Filter, cursor: Option<Pos>, limit: nat, r: seq<nat>) {
    && NewestFirst(t, r) && |r| <= limit
    && (forall k :: 0 <= k < |r| ==> AskedFor(t, f, cursor, r[k]))
    && (forall x :: x in t && AskedFor(t, f, cursor, x) && x !in r ==>
          |r| == limit && forall k :: 0 <= k < |r| ==> Newer(t, r[k], x))
  }

  lemma SelectedIff(t: Rows, f: Filter, cursor: Option<Pos>, x: nat)
    requires x in t
    ensures x in Selected(t, f, cursor) <==> AskedFor(t, f, cursor, x)
  {
  }

  /** The specification's page is such a page. */
  lemma PageIsPage(t: Rows, f: Filter, cursor: Option<Pos>, limit: nat)
    ensures IsPage(t, f, cursor, limit, Page(t, f, cursor, limit))
  {
    var all, page := Ordered(Selected(t, f, cursor), t), Page(t, f, cursor, limit);
    forall k | 0 <= k < |page| ensures page[k] in t && AskedFor(t, f, cursor, page[k]) {
      assert page[k] in page;
      SelectedIff(t, f, cursor, page[k]);
    }
    forall x | x in t && AskedFor(t, f, cursor, x) && x !in page
      ensures |page| == limit && forall k :: 0 <= k < |page| ==> Newer(t, page[k], x)
    {
      SelectedIff(t, f, cursor, x);
      assert x in all;
      var i :| 0 <= i < |all| && all[i] == x;
      assert page != all;
    }
  }

  /** Rows listed newest first are in one order only. */
  lemma NewestFirstUnique(t: Rows, r1: seq<nat>, r2: seq<nat>)
    requires NewestFirst(t, r1) && NewestFirst(t, r2) && forall x :: x in r1 <==> x in r2
    ensures r1 == r2
  {
    OrdersUnique(r1, r2, (set x | x in r1), t);
  }

  method List(t: Rows, f: Filter, cursor: Option<Pos>, limit: int) returns (out: seq<Item>)
    ensures |out| == |Page(t, f, cursor, Clamp(limit))|
    ensures forall k :: 0 <= k < |out| ==>
              var id := Page(t, f, cursor, Clamp(limit))[k]; id in t && out[k] == Item(id, t[id])
    ensures IsPage(t, f, cursor, if 1 <= limit <= 100 then limit else if limit > 100 then 100 else 20,
                   Page(t, f, cursor, Clamp(limit)))
  {
    var ids := Page(t, f, cursor, Clamp(limit));
    PageIsPage(t, f, cursor, Clamp(limit));
    out := [];
    for i := 0 to |ids|
      invariant |out| == i && forall k :: 0 <= k < i ==> ids[k] in t && out[k] == Item(ids[k], t[ids[k]])
    {
      out := out + [Item(ids[i], t[ids[i]])];
    }
  }

  /** The cursor after a page: set exactly when the page has as many rows as were asked for. */
  function NextCursor(t: Rows, page: seq<nat>, limit: nat): Option<Pos>
    requires forall x :: x in page ==> x in t
  {
    if |page| == limit > 0 then Some(PosOf(t, page[|page| - 1])) else None
  }

  method ListNotifications(t: Rows, f: Filter, cursor: Option<Pos>, limit: Option<int>) returns (r: Response)
    ensures r.InvalidLimit? <==> limit.Some? && limit.value < 1
    ensures r.Listed? ==>
              var asked := if limit.Some? then limit.value else 20;
              var page := Page(t, f, cursor, Clamp(asked));
              && |r.items| == |page|
              && (forall k :: 0 <= k < |page| ==> page[k] in t && r.items[k] == Item(page[k], t[page[k]]))
              && IsPage(t, f, cursor, if asked > 100 then 100 else asked, page)
              && (r.next.Some? <==> |r.items| == asked)
              && (r.next.Some? ==>
                    var last := r.items[|r.items| - 1];
                    r.next.value == Pos(last.row.createdAt, last.id))
  {
    var asked := 20;
    if limit.Some? {
      if limit.value < 1 {
        return InvalidLimit;
      }
      asked := limit.value;
    }
    var rows := List(t, f, cursor, asked);
    var out := [];
    for i := 0 to |rows|
      invariant out == rows[..i]
    {
      out := out + [rows[i]];
    }
    var next := None;
    if |out| == asked {
      var last := out[|out| - 1];
      next := Some(Pos(last.row.createdAt, last.id));
    }
    return Listed(out, next);
  }

  // ---- orderings ------------------------------------------------------------------------------------

  lemma {:induction false} OrdersUnique(r1: seq<nat>, r2: seq<nat>, s: set<nat>, t: Rows)
    requires Orders(r1, s, t) && Orders(r2, s, t)
    ensures r1 == r2
    decreases |r1|
  {
    assert r2 == [] <==> s == {} by { assert r2 != [] ==> r2[0] in r2; }
    assert r1 == [] <==> s == {} by { assert r1 != [] ==> r1[0] in r1; }
    if r1 != [] {
      assert r1[0] in r2 && r2[0] in r1 by { assert r1[0] in s; }
      var i :| 0 <= i < |r2| && r2[i] == r1[0];
      var j :| 0 <= j < |r1| && r1[j] == r2[0];
      assert r1[0] == r2[0];
      TailOrders(r1, s, t);
      TailOrders(r2, s, t);
      OrdersUnique(r1[1..], r2[1..], s - {r1[0]}, t);
      assert r1 == [r1[0]] + r1[1..] && r2 == [r2[0]] + r2[1..];
    }
  }

  lemma TailOrders(r: seq<nat>, s: set<nat>, t: Rows)
    requires Orders(r, s, t) && r != []
    ensures Orders(r[1..], s - {r[0]}, t)
  {
    forall x ensures x in r[1..] <==> x in s - {r[0]} {
      assert r == [r[0]] + r[1..];
    }
  }

  /** The number of rows listed is the number selected. */
  lemma {:induction false} OrdersLength(r: seq<nat>, s: set<nat>, t: Rows)
    requires Orders(r, s, t)
    ensures |r| == |s|
    decreases |r|
  {
    if r == [] {
      assert forall x :: x !in s;
      assert s == {};
    } else {
      TailOrders(r, s, t);
      assert r[0] in s;
      OrdersLength(r[1..], s - {r[0]}, t);
    }
  }
}
