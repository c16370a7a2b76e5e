/** Following cursors from page to page while the table changes. */
module Walks {
  import opened Domain
  import opened Listing
  import opened Runs
  import Protocol
  import Theorems

  /** Rows are never deleted and never move in the listing order; other columns may change and rows
      may be added anywhere. */
  predicate Evolves(before: Rows, after: Rows) {
    forall id :: id in before ==> id in after && after[id].createdAt == before[id].createdAt
  }

  ghost function TableOf(s: State): Rows {
    map n | n in s.cells :: s.cells[n].row
  }

  /** This is how the table changes in every run of the protocol. */
  lemma RunEvolves(states: seq<State>, steps: seq<Step>, i: nat, j: nat)
    requires Run(states, steps) && i <= j < |states|
    ensures Evolves(TableOf(states[i]), TableOf(states[j]))
  {
    var before, after := TableOf(states[i]), TableOf(states[j]);
    forall n | n in before ensures n in after && after[n].createdAt == before[n].createdAt {
      Theorems.StatusMachine(states, steps, i, j, n);
    }
  }

  datatype Walk = Walk(tables: seq<Rows>, filter: Filter, limit: nat, pages: seq<seq<nat>>, cursors: seq<Option<Pos>>)

  ghost predicate PageAt(w: Walk, i: nat)
    requires i < |w.pages| == |w.tables| == |w.cursors|
  {
    w.pages[i] == Page(w.tables[i], w.filter, w.cursors[i], Clamp(w.limit))
  }

  ghost predicate CursorAt(w: Walk, i: nat)
    requires i < |w.pages| == |w.tables| == |w.cursors|
  {
    if i == 0 then w.cursors[i] == None
    else
      var page := Page(w.tables[i - 1], w.filter, w.cursors[i - 1], Clamp(w.limit));
      w.cursors[i].Some? && w.cursors[i] == NextCursor(w.tables[i - 1], page, w.limit)
  }

  /** Request i asks for a page with the cursor the previous answer gave, and finds the table as
      tables[i]. */
  ghost predicate Follows(w: Walk) {
    && |w.tables| == |w.pages| == |w.cursors| > 0 && 1 <= w.limit <= 100
    && (forall i :: 0 <= i < |w.pages| ==> PageAt(w, i))
    && (forall i :: 0 <= i < |w.pages| ==> CursorAt(w, i))
    && (forall i, j :: 0 <= i <= j < |w.tables| ==> Evolves(w.tables[i], w.tables[j]))
  }

  /** The last answer carried no cursor. */
  ghost predicate Complete(w: Walk)
    requires Follows(w)
  {
    assert PageAt(w, |w.pages| - 1);
    NextCursor(w.tables[|w.tables| - 1], w.pages[|w.pages| - 1], w.limit).None?
  }

  // ---- one page -----------------------------------------------------------------------------------

  lemma PageEnds(t: Rows, f: Filter, cursor: Option<Pos>, limit: nat, x: nat)
    requires limit > 0
    ensures
      var page := Page(t, f, cursor, limit);
      var next := NextCursor(t, page, limit);
      && (x in page && next.Some? ==> PosOf(t, x) == next.value || Above(PosOf(t, x), next.value))
      && (x in Selected(t, f, cursor) && x !in page ==> next.Some? && Above(next.value, PosOf(t, x)))
      && (next.Some? ==> |page| == limit && Below(cursor, next.value))
  {
    var all := Ordered(Selected(t, f, cursor), t);
    var page := Page(t, f, cursor, limit);
    if x in page {
      var k :| 0 <= k < |page| && page[k] == x;
    }
    if x in Selected(t, f, cursor) && x !in page {
      assert x in all;
      var k :| 0 <= k < |all| && all[k] == x;
      assert k >= limit && page[limit - 1] == all[limit - 1];
    }
    if NextCursor(t, page, limit).Some? {
      assert page[limit - 1] in page;
    }
  }

  // ---- across pages ---------------------------------------------------------------------------------

  /** The page before a cursor is full, and cursors only move down. */
  lemma FullPage(w: Walk, k: nat)
    requires Follows(w) && 0 < k < |w.pages|
    ensures w.pages[k - 1] == Page(w.tables[k - 1], w.filter, w.cursors[k - 1], w.limit)
    ensures w.cursors[k] == NextCursor(w.tables[k - 1], w.pages[k - 1], w.limit) && w.cursors[k].Some?
    ensures |w.pages[k - 1]| == w.limit && Below(w.cursors[k - 1], w.cursors[k].value)
  {
    assert PageAt(w, k - 1) && CursorAt(w, k);
    PageEnds(w.tables[k - 1], w.filter, w.cursors[k - 1], w.limit, 0);
  }

  lemma {:induction false} CursorsDescend(w: Walk, i: nat, j: nat)
    requires Follows(w) && i < j < |w.pages|
    ensures w.cursors[j].Some? && Below(w.cursors[i], w.cursors[j].value)
  {
    FullPage(w, j);
    if i < j - 1 {
      CursorsDescend(w, i, j - 1);
    }
  }

  lemma ShownAbove(w: Walk, k: nat, x: nat)
    requires Follows(w) && 0 < k < |w.pages| && x in w.pages[k - 1]
    ensures w.cursors[k].Some? && x in w.tables[k - 1]
    ensures var p := PosOf(w.tables[k - 1], x); p == w.cursors[k].value || Above(p, w.cursors[k].value)
  {
    FullPage(w, k);
    PageEnds(w.tables[k - 1], w.filter, w.cursors[k - 1], w.limit, x);
  }

  lemma ShownBelow(w: Walk, k: nat, x: nat)
    requires Follows(w) && k < |w.pages| && x in w.pages[k]
    ensures x in w.tables[k] && Matches(w.filter, w.tables[k][x]) && Below(w.cursors[k], PosOf(w.tables[k], x))
  {
    assert PageAt(w, k);
  }

  lemma SamePos(w: Walk, i: nat, j: nat, x: nat)
    requires Follows(w) && i <= j < |w.pages| && x in w.tables[i]
    ensures x in w.tables[j] && PosOf(w.tables[j], x) == PosOf(w.tables[i], x)
  {
    assert Evolves(w.tables[i], w.tables[j]);
  }

  /** A page shows no row that an earlier page showed. */
  lemma NotShownLater(w: Walk, i: nat, j: nat, x: nat)
    requires Follows(w) && i < j < |w.pages| && x in w.pages[i]
    ensures x !in w.pages[j]
  {
    ShownAbove(w, i + 1, x);
    if i + 1 < j {
      CursorsDescend(w, i + 1, j);
    }
    SamePos(w, i, j, x);
    if x in w.pages[j] {
      ShownBelow(w, j, x);
    }
  }

  /** Every request of a walk is answered with the page of the columns, and the next one asks for what
      comes after the last row of it. */
  lemma WalkPage(w: Walk, i: nat)
    requires Follows(w) && i < |w.pages|
    ensures IsPage(w.tables[i], w.filter, w.cursors[i], w.limit, w.pages[i])
    ensures i + 1 < |w.pages| ==>
              && |w.pages[i]| == w.limit && w.pages[i][w.limit - 1] in w.tables[i]
              && w.cursors[i + 1] == Some(Pos(w.tables[i][w.pages[i][w.limit - 1]].createdAt, w.pages[i][w.limit - 1]))
  {
    assert PageAt(w, i);
    PageIsPage(w.tables[i], w.filter, w.cursors[i], w.limit);
    if i + 1 < |w.pages| {
      FullPage(w, i + 1);
    }
  }

  /** No row is returned twice, whatever happens to the table between the requests. */
  lemma NoRowTwice(w: Walk, i: nat, p: nat, j: nat, q: nat)
    requires Follows(w) && i < |w.pages| && p < |w.pages[i]| && j < |w.pages| && q < |w.pages[j]|
    ensures w.pages[i][p] == w.pages[j][q] ==> i == j && p == q
  {
    assert PageAt(w, i) && PageAt(w, j);
    if i < j {
      NotShownLater(w, i, j, w.pages[i][p]);
    } else if j < i {
      NotShownLater(w, j, i, w.pages[j][q]);
    }
  }

  ghost predicate Shown(pages: seq<seq<nat>>, k: nat, x: nat) {
    exists i :: 0 <= i < |pages| && i <= k && x in pages[i]
  }

  lemma {:induction false} Reached(w: Walk, k: nat, x: nat)
    requires Follows(w) && k < |w.pages|
    requires x in w.tables[0]
    requires forall i :: 0 <= i < |w.tables| && x in w.tables[i] ==> Matches(w.filter, w.tables[i][x])
    ensures x in w.tables[k] && PageAt(w, k)
    ensures
      var next := NextCursor(w.tables[k], w.pages[k], w.limit);
      Shown(w.pages, k, x) || (next.Some? && Above(next.value, PosOf(w.tables[k], x)))
  {
    SamePos(w, 0, k, x);
    assert PageAt(w, k) && CursorAt(w, k);
    PageEnds(w.tables[k], w.filter, w.cursors[k], w.limit, x);
    if k > 0 {
      Reached(w, k - 1, x);
      FullPage(w, k);
      SamePos(w, k - 1, k, x);
    }
  }

  /** A row that was there from the start and matched at every request is returned, and by
      NoRowTwice returned once; what is returned is always a row that is there and matches. */
  lemma ReturnedOnce(w: Walk, x: nat)
    requires Follows(w) && Complete(w)
    requires x in w.tables[0]
    requires forall i :: 0 <= i < |w.tables| && x in w.tables[i] ==> Matches(w.filter, w.tables[i][x])
    ensures exists i, p :: 0 <= i < |w.pages| && 0 <= p < |w.pages[i]| && w.pages[i][p] == x
  {
    Reached(w, |w.pages| - 1, x);
    var i :| 0 <= i < |w.pages| && x in w.pages[i];
    var p :| 0 <= p < |w.pages[i]| && w.pages[i][p] == x;
  }

  lemma ReturnedMatches(w: Walk, i: nat, p: nat)
    requires Follows(w) && i < |w.pages| && p < |w.pages[i]|
    ensures w.pages[i][p] in w.tables[i] && Matches(w.filter, w.tables[i][w.pages[i][p]])
    ensures AskedFor(w.tables[i], w.filter, w.cursors[i], w.pages[i][p])
  {
    WalkPage(w, i);
    ShownBelow(w, i, w.pages[i][p]);
  }

  // ---- termination ------------------------------------------------------------------------------------

  ghost function IdsOn(r: seq<nat>): set<nat> {
    set x | x in r
  }

  ghost function Seen(pages: seq<seq<nat>>, k: nat): set<nat>
    requires k <= |pages|
  {
    if k == 0 then {} else Seen(pages, k - 1) + IdsOn(pages[k - 1])
  }

  lemma {:induction false} SeenIs(pages: seq<seq<nat>>, k: nat, x: nat)
    requires k <= |pages|
    ensures x in Seen(pages, k) <==> exists i :: 0 <= i < k && x in pages[i]
  {
    if k > 0 {
      SeenIs(pages, k - 1, x);
    }
  }

  lemma NewOnPage(w: Walk, k: nat)
    requires Follows(w) && 0 < k < |w.pages|
    ensures Seen(w.pages, k - 1) !! IdsOn(w.pages[k - 1]) && |IdsOn(w.pages[k - 1])| == w.limit
    ensures IdsOn(w.pages[k - 1]) <= w.tables[|w.tables| - 1].Keys
  {
    FullPage(w, k);
    var page := w.pages[k - 1];
    forall x | x in page ensures x !in Seen(w.pages, k - 1) {
      SeenIs(w.pages, k - 1, x);
      forall i | 0 <= i < k - 1 ensures x !in w.pages[i] {
        if x in w.pages[i] {
          NotShownLater(w, i, k - 1, x);
        }
      }
    }
    OrdersLength(w.pages[k - 1], IdsOn(w.pages[k - 1]), w.tables[k - 1]);
    assert Evolves(w.tables[k - 1], w.tables[|w.tables| - 1]);
  }

  lemma TimesStep(k: nat, limit: nat)
    requires k > 0
    ensures k * limit == (k - 1) * limit + limit
  {
  }

  lemma {:induction false} SeenCount(w: Walk, k: nat)
    requires Follows(w) && k < |w.pages|
    ensures |Seen(w.pages, k)| == k * w.limit
    ensures Seen(w.pages, k) <= w.tables[|w.tables| - 1].Keys
  {
    if k > 0 {
      SeenCount(w, k - 1);
      NewOnPage(w, k);
      TimesStep(k, w.limit);
    }
  }

  /** A walk ends: every page but the last one shows `limit` further rows of the table. */
  lemma WalkLength(w: Walk)
    requires Follows(w)
    ensures (|w.pages| - 1) * w.limit <= |w.tables[|w.tables| - 1]|
  {
    var last := w.tables[|w.tables| - 1];
    SeenCount(w, |w.pages| - 1);
    SubsetSize(Seen(w.pages, |w.pages| - 1), last.Keys);
    assert |last.Keys| == |last|;
  }

  // ---- a table at rest --------------------------------------------------------------------------------

  function Flat(pages: seq<seq<nat>>): seq<nat> {
    if pages == [] then [] else Flat(pages[..|pages| - 1]) + pages[|pages| - 1]
  }

  /** A full page followed by everything after its cursor is everything. */
  lemma PageSplits(t: Rows, f: Filter, cursor: Option<Pos>, limit: nat)
    requires limit > 0 && NextCursor(t, Page(t, f, cursor, limit), limit).Some?
    ensures
      var page := Page(t, f, cursor, limit);
      Ordered(Selected(t, f, cursor), t) == page + Ordered(Selected(t, f, NextCursor(t, page, limit)), t)
  {
    var page := Page(t, f, cursor, limit);
    var next := NextCursor(t, page, limit);
    var all := Ordered(Selected(t, f, cursor), t);
    var rest := all[limit..];
    assert all == page + rest;
    forall x ensures x in rest <==> x in Selected(t, f, next) {
      RestIs(t, f, cursor, limit, x);
    }
    OrdersUnique(rest, Ordered(Selected(t, f, next), t), Selected(t, f, next), t);
  }

  lemma RestIs(t: Rows, f: Filter, cursor: Option<Pos>, limit: nat, x: nat)
    requires limit > 0 && NextCursor(t, Page(t, f, cursor, limit), limit).Some?
    ensures
      var all := Ordered(Selected(t, f, cursor), t);
      |all| >= limit && (x in all[limit..] <==> x in Selected(t, f, NextCursor(t, Page(t, f, cursor, limit), limit)))
  {
    var all := Ordered(Selected(t, f, cursor), t);
    var page := Page(t, f, cursor, limit);
    var next := NextCursor(t, page, limit);
    PageEnds(t, f, cursor, limit, x);
    assert all == page + all[limit..];
    assert page[limit - 1] == all[limit - 1];
    if x in all[limit..] {
      var k :| limit <= k < |all| && all[k] == x;
      assert x in Selected(t, f, cursor);
    }
    if x in Selected(t, f, next) {
      assert x in Selected(t, f, cursor);
      assert x in all;
    }
  }

  lemma StaticStep(w: Walk, t: Rows, k: nat)
    requires Follows(w) && 0 < k < |w.pages| && w.tables[k - 1] == t
    ensures Ordered(Selected(t, w.filter, w.cursors[k - 1]), t)
            == w.pages[k - 1] + Ordered(Selected(t, w.filter, w.cursors[k]), t)
    ensures |w.pages[k - 1]| == w.limit
  {
    FullPage(w, k);
    PageSplits(t, w.filter, w.cursors[k - 1], w.limit);
  }

  lemma FlatStep(pages: seq<seq<nat>>, k: nat)
    requires 0 < k <= |pages|
    ensures Flat(pages[..k]) == Flat(pages[..k - 1]) + pages[k - 1]
  {
    assert pages[..k][..k - 1] == pages[..k - 1];
  }

  lemma Joined(all: seq<nat>, done: seq<nat>, rest: seq<nat>, page: seq<nat>, done': seq<nat>, rest': seq<nat>)
    requires all == done + rest && rest == page + rest' && done' == done + page
    ensures all == done' + rest'
  {
  }

  function RestOf(w: Walk, t: Rows, k: nat): seq<nat>
    requires k < |w.cursors|
  {
    Ordered(Selected(t, w.filter, w.cursors[k]), t)
  }

  lemma PrefixStep(w: Walk, t: Rows, k: nat, all: seq<nat>)
    requires Follows(w) && 0 < k < |w.pages| && w.tables[k - 1] == t
    requires all == Flat(w.pages[..k - 1]) + RestOf(w, t, k - 1)
    ensures all == Flat(w.pages[..k]) + RestOf(w, t, k)
  {
    StaticStep(w, t, k);
    FlatStep(w.pages, k);
    Joined(all, Flat(w.pages[..k - 1]), RestOf(w, t, k - 1), w.pages[k - 1], Flat(w.pages[..k]), RestOf(w, t, k));
  }

  lemma {:induction false} StaticPrefix(w: Walk, t: Rows, k: nat)
    requires Follows(w) && k < |w.pages|
    requires forall i :: 0 <= i < |w.tables| ==> w.tables[i] == t
    ensures FullListing(t, w.filter) == Flat(w.pages[..k]) + RestOf(w, t, k)
  {
    if k > 0 {
      StaticPrefix(w, t, k - 1);
      PrefixStep(w, t, k, FullListing(t, w.filter));
    } else {
      assert CursorAt(w, 0);
    }
  }

  lemma {:induction false} FlatLength(w: Walk, k: nat)
    requires Follows(w) && k < |w.pages|
    ensures |Flat(w.pages[..k])| == k * w.limit
  {
    if k > 0 {
      FlatLength(w, k - 1);
      FullPage(w, k);
      FlatStep(w.pages, k);
      TimesStep(k, w.limit);
    }
  }

  /** On a table that does not change, the pages put together are the whole listing, and there are
      as many as its length calls for. */
  lemma StaticWalk(w: Walk, t: Rows)
    requires Follows(w)
    requires forall i :: 0 <= i < |w.tables| ==> w.tables[i] == t
    ensures Flat(w.pages) <= FullListing(t, w.filter)
    ensures Complete(w) <==> |w.pages| == |FullListing(t, w.filter)| / w.limit + 1
    ensures Complete(w) ==> Flat(w.pages) == FullListing(t, w.filter)
    ensures NewestFirst(t, FullListing(t, w.filter)) && NewestFirst(t, Flat(w.pages))
    ensures forall x :: x in FullListing(t, w.filter) <==> x in t && AskedFor(t, w.filter, None, x)
  {
    ListingIs(t, w.filter);
    var k := |w.pages| - 1;
    StaticPrefix(w, t, k);
    FlatLength(w, k);
    assert PageAt(w, k);
    assert w.pages[..k] == w.pages[..|w.pages| - 1];
    var all := Ordered(Selected(t, w.filter, w.cursors[k]), t);
    assert w.pages[k] == AtMost(all, w.limit);
    assert |FullListing(t, w.filter)| == k * w.limit + |all|;
    Quotient(|FullListing(t, w.filter)|, k, w.limit, |all|);
  }

  /** The whole listing has exactly the rows asked for, newest first. */
  lemma ListingIs(t: Rows, f: Filter)
    ensures NewestFirst(t, FullListing(t, f))
    ensures forall x :: x in FullListing(t, f) <==> x in t && AskedFor(t, f, None, x)
  {
    forall x | x in t ensures x in Selected(t, f, None) <==> AskedFor(t, f, None, x) {
      SelectedIff(t, f, None, x);
    }
  }

  lemma Quotient(n: nat, k: nat, limit: nat, rest: nat)
    requires limit > 0 && n == k * limit + rest
    ensures rest < limit <==> n / limit == k
  {
    var q := n / limit;
    Scale(q + 1, k, limit);
    Scale(k + 1, q, limit);
  }

  lemma Scale(a: nat, b: nat, c: nat)
    ensures a <= b ==> a * c <= b * c
  {
    if a <= b {
      assert b * c == a * c + (b - a) * c;
    }
  }

  // ---- beyond the documented range ----------------------------------------------------------------------

  /** Asking for more than a hundred: the page is cut to a hundred but the answer never carries a
      cursor, so the walk is complete exactly when no more than a hundred rows match. */
  lemma OverLimit(t: Rows, f: Filter, limit: nat)
    requires limit > 100
    ensures
      var page := Page(t, f, None, Clamp(limit));
      NextCursor(t, page, limit).None? && (page == FullListing(t, f) <==> |FullListing(t, f)| <= 100)
  {
  }
}
