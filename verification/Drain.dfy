/** Draining the outbox with a single relay, while publishes succeed and the database does not
    fail: entries leave in id order and every tick makes progress, although other processes keep
    moving rows and adding entries. */
module Drain {
  import opened Domain

  const OUTBOX_BATCH_PER_TICK: nat := 25

  datatype OutboxRow = OutboxRow(id: nat, n: nat, published: bool)

  /** What other processes do to the two tables: a new row, a guarded UPDATE of one, or a new entry. */
  datatype Change = RowAdded(n: nat, row: Row) | RowChanged(n: nat, u: Update) | EntryAdded(n: nat)

  datatype Way = Unmarked | Committed | Discarded

  class Tables {
    var rows: map<nat, Row>
    /** In id order; ids commit in order. */
    var outbox: seq<OutboxRow>

    ghost var head: nat
    ghost var claims: seq<nat>
    ghost var sent: seq<nat>
    /** How the entry was marked: by a commit, or because its row had left pending. */
    ghost var ways: seq<Way>

    ghost predicate Valid()
      reads this
    {
      && head <= |outbox| == |claims| == |sent| == |ways|
      && (forall i, j :: 0 <= i < j < |outbox| ==> outbox[i].id < outbox[j].id)
      && (forall i :: 0 <= i < |outbox| ==> outbox[i].n in rows)
      && (forall i :: 0 <= i < |outbox| ==> (outbox[i].published <==> i < head))
      && (forall i :: 0 <= i < |outbox| ==> claims[i] <= if i < head then 2 else if i == head then 1 else 0)
      && (forall i :: 0 <= i < |outbox| ==> sent[i] <= 1 && sent[i] <= claims[i])
      && (forall i :: 0 <= i < |outbox| ==> (ways[i].Unmarked? <==> head <= i) && (ways[i].Committed? ==> sent[i] == 1))
      && (head < |outbox| && claims[head] == 1 ==> !rows[outbox[head].n].status.Pending?)
    }

    /** The entries before head are the marked ones; what happened to each so far. */
    ghost predicate Accounted()
      reads this
    {
      && |claims| == |sent| == |ways| == |outbox|
      && forall i :: 0 <= i < |outbox| ==>
           && (outbox[i].published <==> i < head) && claims[i] <= 2 && sent[i] <= 1
           && (ways[i].Unmarked? <==> !outbox[i].published) && (ways[i].Committed? ==> sent[i] == 1)
    }

    /** How often the first entry not yet marked has been tried. */
    ghost function Tries(): nat
      reads this
      requires Valid()
    {
      if head < |outbox| then claims[head] else 0
    }

    constructor (initial: map<nat, Row>)
      ensures Valid() && rows == initial && outbox == []
    {
      rows, outbox, head, claims, sent, ways := initial, [], 0, [], [], [];
    }

    /** A guarded UPDATE; ok when it affected a row. */
    method Exec1(n: nat, u: Update) returns (ok: bool)
      modifies this`rows
      ensures ok <==> n in old(rows) && Guard(u, old(rows)[n].status)
      ensures !ok ==> rows == old(rows)
      ensures ok ==>
                var status := match u
                              case ToQueued => Queued
                              case ToSending => Sending
                              case ToDelivered(_) => Delivered
                              case ToFailed => Failed
                              case ToReleased => Queued
                              case ToCancelled => Cancelled;
                var row := old(rows)[n];
                var provider := if u.ToDelivered? && u.mid.Some? then u.mid else row.provider;
                rows == old(rows)[n := row.(status := status, provider := provider)]
    {
      if n in rows && Guard(u, rows[n].status) {
        rows := rows[n := Exec(u, rows[n])];
        return true;
      }
      return false;
    }

    /** SELECT the first unpublished entry. */
    method ClaimOutboxBatch() returns (found: bool, k: nat)
      requires Valid()
      ensures found <==> head < |outbox|
      ensures found ==> k == head
    {
      k := 0;
      while k < |outbox|
        invariant k <= head
      {
        if !outbox[k].published {
          return true, k;
        }
        k := k + 1;
      }
      return false, 0;
    }

    /** Another process adds an entry; its id is larger than every id so far. */
    method Add(n: nat)
      requires Valid() && n in rows
      modifies this`outbox, this`claims, this`sent, this`ways
      ensures Valid() && old(outbox) <= outbox && old(claims) <= claims && old(sent) <= sent && old(ways) <= ways
      ensures |outbox| == |old(outbox)| + 1
    {
      var id := if |outbox| == 0 then 0 else outbox[|outbox| - 1].id + 1;
      outbox, claims, sent := outbox + [OutboxRow(id, n, false)], claims + [0], sent + [0];
      ways := ways + [Unmarked];
    }

    /** Other processes: rows are inserted and move by guarded UPDATEs, entries are only appended. */
    method Meddle(changes: seq<Change>)
      requires Valid()
      modifies this
      ensures Valid() && head == old(head)
      ensures old(outbox) <= outbox && old(claims) <= claims && old(sent) <= sent && old(ways) <= ways
      ensures StillThere(old(rows), rows)
      ensures forall n :: n in old(rows) && Untouched(changes, n) ==> rows[n] == old(rows)[n]
    {
      for i := 0 to |changes|
        invariant Valid() && head == old(head)
        invariant old(outbox) <= outbox && old(claims) <= claims && old(sent) <= sent && old(ways) <= ways
        invariant StillThere(old(rows), rows)
        invariant forall n :: n in old(rows) && Untouched(changes, n) ==> rows[n] == old(rows)[n]
      {
        match changes[i]
        case RowAdded(n, row) => if n !in rows { rows := rows[n := row]; }
        case RowChanged(n, u) => Change1(n, u);
        case EntryAdded(n) => if n in rows { Add(n); }
      }
    }

    /** A guarded UPDATE by another process. */
    method Change1(n: nat, u: Update)
      requires Valid()
      modifies this`rows
      ensures Valid() && StillThere(old(rows), rows)
      ensures forall k :: k in old(rows) && k != n ==> rows[k] == old(rows)[k]
    {
      var ok := Exec1(n, u);
    }

    method MarkOutboxPublished(k: nat)
      requires k < |outbox|
      modifies this`outbox
      ensures outbox == old(outbox)[k := old(outbox)[k].(published := true)]
    {
      outbox := outbox[k := outbox[k].(published := true)];
    }

    /** The claimed entry's row has left pending: the entry is done with. */
    method Discard(k: nat)
      requires Valid() && k == head < |outbox| && !rows[outbox[k].n].status.Pending?
      modifies this`outbox, this`head, this`claims, this`ways
      ensures Valid() && Continues(old(outbox), outbox) && head == old(head) + 1
      ensures ways == old(ways)[k := Discarded]
    {
      MarkOutboxPublished(k);
      claims, head, ways := claims[k := claims[k] + 1], head + 1, ways[k := Discarded];
    }

    /** Publish, then MarkQueued together with MarkOutboxPublished; other processes act before
        that update and can make it miss. */
    method Send(k: nat, between: seq<Change>) returns (done: bool)
      requires Valid() && k == head < |outbox| && rows[outbox[k].n].status.Pending?
      modifies this
      ensures Valid() && StillThere(old(rows), rows) && Continues(old(outbox), outbox)
      ensures head == old(head) + if done then 1 else 0
      ensures !done ==> claims[head] == 1 && old(claims)[head] == 0
      ensures Untouched(between, old(outbox)[k].n) ==> done
      ensures sent[k] == 1 && old(ways) <= ways[k := Unmarked] && ways[k] == if done then Committed else Unmarked
    {
      Meddle(between);
      done := Commit(k);
    }

    /** The publish is counted; the update and the mark take effect together, or neither does. */
    method Commit(k: nat) returns (done: bool)
      requires Valid() && k == head < |outbox| && claims[k] == 0
      modifies this
      ensures Valid() && StillThere(old(rows), rows) && Continues(old(outbox), outbox)
      ensures head == old(head) + if done then 1 else 0
      ensures !done ==> claims[head] == 1
      ensures sent == old(sent)[k := old(sent)[k] + 1] && ways == if done then old(ways)[k := Committed] else old(ways)
      ensures done <==> old(rows)[old(outbox)[k].n].status.Pending?
    {
      done := Exec1(outbox[k].n, ToQueued);
      claims, sent := claims[k := claims[k] + 1], sent[k := sent[k] + 1];
      if done {
        MarkOutboxPublished(k);
        head, ways := head + 1, ways[k := Committed];
      }
    }

    /** One iteration of the tick: claim the first entry, read its row, then either discard the
        entry or send it. */
    method Iterate(between: seq<Change>) returns (found: bool, done: bool)
      requires Valid()
      modifies this
      ensures Valid() && StillThere(old(rows), rows) && Continues(old(outbox), outbox)
      ensures found <==> old(head) < |old(outbox)|
      ensures done ==> found
      ensures head == old(head) + if done then 1 else 0
      ensures !found ==> outbox == old(outbox) && claims == old(claims)
      ensures found && !done ==> claims[head] == 1 && old(claims)[head] == 0
      ensures found ==>
                var pending := old(rows)[old(outbox)[old(head)].n].status.Pending?;
                && ways[old(head)] == (if !pending then Discarded else if done then Committed else Unmarked)
                && (pending ==> sent[old(head)] == 1)
      ensures found && Untouched(between, old(outbox)[old(head)].n) ==> done
    {
      var k;
      found, k := ClaimOutboxBatch();
      if !found {
        return false, false;
      }
      if !rows[outbox[k].n].status.Pending? {
        Discard(k);
        return true, true;
      }
      done := Send(k, between);
    }

    /** What others do before the iteration, and the iteration. */
    method Round(before: seq<Change>, between: seq<Change>) returns (found: bool, done: bool)
      requires Valid()
      modifies this
      ensures Valid() && Accounted() && Continues(old(outbox), outbox)
      ensures (done ==> found) && head == old(head) + if done then 1 else 0
      ensures !found ==> head == |outbox|
      ensures old(Tries()) <= 1 && (found && !done ==> old(Tries()) == 0 && Tries() == 1)
      ensures found && (forall n :: Untouched(between, n)) ==> done
    {
      Meddle(before);
      found, done := Iterate(between);
    }

    /** A tick marks at least twelve of the entries it finds, or all of them; and as many as its
        batch size when no claimed row moves between its read and its update.  Entries are marked in id
        order, none is claimed more than twice or published more than once, and every entry marked by a
        commit was published. */
    method Tick(before: nat -> seq<Change>, between: nat -> seq<Change>) returns (marked: nat)
      requires Valid()
      modifies this
      ensures Valid() && Continues(old(outbox), outbox) && head == old(head) + marked
      ensures Accounted()
      ensures marked >= Min(12, |old(outbox)| - old(head))
      ensures (forall i, n :: 0 <= i < 25 ==> Untouched(between(i), n)) ==> marked >= Min(25, |old(outbox)| - old(head))
    {
      marked := 0;
      var i := 0;
      while i < OUTBOX_BATCH_PER_TICK
        invariant Valid() && Accounted() && i <= OUTBOX_BATCH_PER_TICK
        invariant Continues(old(outbox), outbox) && head == old(head) + marked
        invariant i <= 2 * marked + Tries()
        invariant (forall j, n :: 0 <= j < OUTBOX_BATCH_PER_TICK ==> Untouched(between(j), n)) ==> i == marked
        decreases OUTBOX_BATCH_PER_TICK - i
      {
        var found, done := Round(before(i), between(i));
        if !found {
          return;
        }
        if done {
          marked := marked + 1;
        }
        i := i + 1;
      }
    }
  }

  function Min(a: int, b: int): int {
    if a < b then a else b
  }

  /** Entries are never removed or reordered, and a published one stays published. */
  predicate Continues(before: seq<OutboxRow>, after: seq<OutboxRow>) {
    && |before| <= |after|
    && forall i :: 0 <= i < |before| ==>
         after[i].id == before[i].id && after[i].n == before[i].n && (before[i].published ==> after[i].published)
  }

  /** No row disappears, and none returns to pending. */
  predicate StillThere(before: map<nat, Row>, after: map<nat, Row>) {
    forall n :: n in before ==> n in after && (after[n].status.Pending? ==> before[n].status.Pending?)
  }

  predicate Untouched(changes: seq<Change>, n: nat) {
    forall i :: 0 <= i < |changes| && changes[i].RowChanged? ==> changes[i].n != n
  }
}
