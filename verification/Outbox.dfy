/** The outbox repository's save: next version by max + 1, retried when another transaction took it. */
module Outbox {
  import opened Basics
  import opened Payments
  import opened Storage

  const MAX_RETRIES := 3

  function MaxVersion(rows: seq<OutboxRow>, a: Id): int {
    if rows == [] then 0
    else
      var m, last := MaxVersion(rows[..|rows| - 1], a), rows[|rows| - 1];
      if last.aggregateId == a && last.version > m then last.version else m
  }

  function NewRow(rows: seq<OutboxRow>, a: Id, id: Id, e: Event, at: Time): OutboxRow {
    OutboxRow(id, a, MaxVersion(rows, a) + 1, e, at, None, None, 0, None)
  }

  /** The primary key and the unique (aggregate_id, aggregate_version) constraint admit r. */
  predicate Fits(rows: seq<OutboxRow>, r: OutboxRow) {
    forall x :: x in rows ==> x.id != r.id && !(x.aggregateId == r.aggregateId && x.version == r.version)
  }

  ghost predicate Distinct(rows: seq<OutboxRow>) {
    forall i, j :: 0 <= i < j < |rows| ==>
      rows[i].id != rows[j].id && !(rows[i].aggregateId == rows[j].aggregateId && rows[i].version == rows[j].version)
  }

  datatype Saved = Saved(ok: bool, rows: seq<OutboxRow>)

  /** rivals[k] are the rows other transactions commit between the k-th read of the maximum and the k-th insert. */
  function SaveWith(rows: seq<OutboxRow>, a: Id, id: Id, e: Event, at: Time, rivals: seq<seq<OutboxRow>>): Saved
    decreases |rivals|
  {
    if rivals == [] then Saved(false, rows)
    else
      var mine, now := NewRow(rows, a, id, e, at), rows + rivals[0];
      if Fits(now, mine) then Saved(true, now + [mine])
      else SaveWith(now, a, id, e, at, rivals[1..])
  }

  lemma {:induction false} MaxIsUpperBound(rows: seq<OutboxRow>, a: Id, r: OutboxRow)
    requires r in rows && r.aggregateId == a
    ensures r.version <= MaxVersion(rows, a)
  {
    if r != rows[|rows| - 1] {
      assert r in rows[..|rows| - 1];
      MaxIsUpperBound(rows[..|rows| - 1], a, r);
    }
  }

  lemma {:induction false} MaxIsAttained(rows: seq<OutboxRow>, a: Id)
    ensures MaxVersion(rows, a) == 0 || exists r :: r in rows && r.aggregateId == a && r.version == MaxVersion(rows, a)
  {
    if rows != [] {
      var init, last := rows[..|rows| - 1], rows[|rows| - 1];
      MaxIsAttained(init, a);
      if last.aggregateId == a && last.version > MaxVersion(init, a) {
        assert last in rows;
      } else if MaxVersion(init, a) != 0 {
        var r :| r in init && r.aggregateId == a && r.version == MaxVersion(init, a);
        assert r in rows;
      }
    }
  }

  /** With nobody in between, the number just read plus one is free. */
  lemma NextVersionIsFree(rows: seq<OutboxRow>, a: Id, id: Id, e: Event, at: Time)
    ensures Fits(rows, NewRow(rows, a, id, e, at)) <==> forall x :: x in rows ==> x.id != id
  {
    forall x | x in rows && x.aggregateId == a ensures x.version <= MaxVersion(rows, a) {
      MaxIsUpperBound(rows, a, x);
    }
  }

  lemma FitsKeepsDistinct(rows: seq<OutboxRow>, r: OutboxRow)
    requires Distinct(rows) && Fits(rows, r)
    ensures Distinct(rows + [r])
  {
  }

  lemma PrefixIsDistinct(rows: seq<OutboxRow>, more: seq<OutboxRow>)
    requires Distinct(rows + more)
    ensures Distinct(rows)
  {
    forall i, j | 0 <= i < j < |rows|
      ensures rows[i].id != rows[j].id
      ensures !(rows[i].aggregateId == rows[j].aggregateId && rows[i].version == rows[j].version)
    {
      assert (rows + more)[i] == rows[i] && (rows + more)[j] == rows[j];
    }
  }

  /** r is the event as a fresh row, numbered above every row of its aggregate. */
  predicate Adds(rows: seq<OutboxRow>, a: Id, id: Id, e: Event, at: Time, r: OutboxRow) {
    r == OutboxRow(id, a, r.version, e, at, None, None, 0, None) && r.version > MaxVersion(rows, a)
  }

  lemma PrefixOfPrefix(rows: seq<OutboxRow>, now: seq<OutboxRow>, after: seq<OutboxRow>)
    requires rows <= now && now <= after
    ensures rows <= after
  {
    assert after[..|rows|] == after[..|now|][..|rows|];
  }

  /** Rows already there stay in place, and a successful save adds its own event, once, at the end. */
  lemma {:induction false} SaveAddsOneRow(rows: seq<OutboxRow>, a: Id, id: Id, e: Event, at: Time,
                                          rivals: seq<seq<OutboxRow>>)
    ensures var s := SaveWith(rows, a, id, e, at, rivals);
            rows <= s.rows && (s.ok ==> |rows| < |s.rows| && Adds(rows, a, id, e, at, s.rows[|s.rows| - 1]))
    decreases |rivals|
  {
    if rivals != [] {
      var now := rows + rivals[0];
      var mine := NewRow(rows, a, id, e, at);
      if Fits(now, mine) {
        PrefixOfPrefix(rows, now, now + [mine]);
      } else {
        SaveAddsOneRow(now, a, id, e, at, rivals[1..]);
        MaxGrows(rows, rivals[0], a);
        PrefixOfPrefix(rows, now, SaveWith(now, a, id, e, at, rivals[1..]).rows);
      }
    }
  }

  /** A save that gives up leaves only what the others committed. */
  lemma {:induction false} FailedSaveAddsNothing(rows: seq<OutboxRow>, a: Id, id: Id, e: Event, at: Time,
                                                 rivals: seq<seq<OutboxRow>>)
    requires !SaveWith(rows, a, id, e, at, rivals).ok
    ensures SaveWith(rows, a, id, e, at, rivals).rows == rows + Flatten(rivals)
    decreases |rivals|
  {
    if rivals != [] {
      FailedSaveAddsNothing(rows + rivals[0], a, id, e, at, rivals[1..]);
      assert rows + Flatten(rivals) == rows + rivals[0] + Flatten(rivals[1..]);
    }
  }

  /** Whatever other transactions commit in between, versions per aggregate and ids stay distinct. */
  lemma {:induction false} SaveKeepsDistinct(rows: seq<OutboxRow>, a: Id, id: Id, e: Event, at: Time,
                                             rivals: seq<seq<OutboxRow>>)
    requires Distinct(rows + Flatten(rivals))
    ensures Distinct(SaveWith(rows, a, id, e, at, rivals).rows)
    decreases |rivals|
  {
    if rivals == [] {
      assert rows + Flatten(rivals) == rows;
    } else {
      var mine, now := NewRow(rows, a, id, e, at), rows + rivals[0];
      assert rows + Flatten(rivals) == now + Flatten(rivals[1..]);
      PrefixIsDistinct(now, Flatten(rivals[1..]));
      if Fits(now, mine) {
        FitsKeepsDistinct(now, mine);
      } else {
        SaveKeepsDistinct(now, a, id, e, at, rivals[1..]);
      }
    }
  }

  lemma {:induction false} MaxGrows(rows: seq<OutboxRow>, more: seq<OutboxRow>, a: Id)
    ensures MaxVersion(rows, a) <= MaxVersion(rows + more, a)
  {
    if more == [] {
      assert rows + more == rows;
    } else {
      MaxGrows(rows, more[..|more| - 1], a);
      assert (rows + more)[..|rows + more| - 1] == rows + more[..|more| - 1];
    }
  }

  /** A collision on one attempt: some rival took the id, or the very number this attempt read. */
  predicate Beaten(rows: seq<OutboxRow>, a: Id, id: Id, arrivals: seq<OutboxRow>) {
    || (exists x :: x in rows && x.id == id)
    || exists x :: x in arrivals && (x.id == id || (x.aggregateId == a && x.version == MaxVersion(rows, a) + 1))
  }

  function RowsBefore(rows: seq<OutboxRow>, rivals: seq<seq<OutboxRow>>, k: nat): seq<OutboxRow>
    requires k <= |rivals|
  {
    if k == 0 then rows else RowsBefore(rows, rivals, k - 1) + rivals[k - 1]
  }

  /** The save gives up exactly when every attempt was beaten. */
  lemma {:induction false} SaveFailsIffAlwaysBeaten(rows: seq<OutboxRow>, a: Id, id: Id, e: Event, at: Time,
                                                    rivals: seq<seq<OutboxRow>>)
    ensures !SaveWith(rows, a, id, e, at, rivals).ok <==>
            forall k :: 0 <= k < |rivals| ==> Beaten(RowsBefore(rows, rivals, k), a, id, rivals[k])
    decreases |rivals|
  {
    if rivals != [] {
      var mine, now := NewRow(rows, a, id, e, at), rows + rivals[0];
      FitsUnlessBeaten(rows, a, id, e, at, rivals[0]);
      SaveFailsIffAlwaysBeaten(now, a, id, e, at, rivals[1..]);
      assert RowsBefore(rows, rivals, 0) == rows;
      forall k | 1 <= k < |rivals|
        ensures RowsBefore(rows, rivals, k) == RowsBefore(now, rivals[1..], k - 1) && rivals[k] == rivals[1..][k - 1]
      {
        ShiftRows(rows, rivals, k);
      }
      forall k | 0 <= k < |rivals| - 1
        ensures RowsBefore(now, rivals[1..], k) == RowsBefore(rows, rivals, k + 1) && rivals[1..][k] == rivals[k + 1]
      {
        ShiftRows(rows, rivals, k + 1);
      }
    }
  }

  lemma {:induction false} ShiftRows(rows: seq<OutboxRow>, rivals: seq<seq<OutboxRow>>, k: nat)
    requires 1 <= k <= |rivals|
    ensures RowsBefore(rows, rivals, k) == RowsBefore(rows + rivals[0], rivals[1..], k - 1)
  {
    if k > 1 {
      ShiftRows(rows, rivals, k - 1);
    } else {
      assert RowsBefore(rows, rivals, 0) == rows;
    }
  }

  lemma FitsUnlessBeaten(rows: seq<OutboxRow>, a: Id, id: Id, e: Event, at: Time, arrivals: seq<OutboxRow>)
    ensures Fits(rows + arrivals, NewRow(rows, a, id, e, at)) <==> !Beaten(rows, a, id, arrivals)
  {
    forall x | x in rows && x.aggregateId == a ensures x.version <= MaxVersion(rows, a) {
      MaxIsUpperBound(rows, a, x);
    }
  }

  // ---------- the admin's deletion of processed rows ----------

  function DeleteProcessed(rows: seq<OutboxRow>, cutoff: Time): seq<OutboxRow> {
    if rows == [] then []
    else
      var last := rows[|rows| - 1];
      DeleteProcessed(rows[..|rows| - 1], cutoff)
      + (if last.processedAt.Some? && last.createdAt < cutoff then [] else [last])
  }

  lemma {:induction false} DeletionSelects(rows: seq<OutboxRow>, cutoff: Time, r: OutboxRow)
    ensures r in DeleteProcessed(rows, cutoff) <==> r in rows && !(r.processedAt.Some? && r.createdAt < cutoff)
  {
    if rows != [] {
      DeletionSelects(rows[..|rows| - 1], cutoff, r);
      assert rows == rows[..|rows| - 1] + [rows[|rows| - 1]];
    }
  }

  /** Deleting processed rows keeps the live versions of every aggregate distinct. */
  lemma {:induction false} DeletionKeepsDistinct(rows: seq<OutboxRow>, cutoff: Time)
    requires Distinct(rows)
    ensures Distinct(DeleteProcessed(rows, cutoff))
  {
    if rows != [] {
      var init, last := rows[..|rows| - 1], rows[|rows| - 1];
      assert rows == init + [last];
      PrefixIsDistinct(init, [last]);
      DeletionKeepsDistinct(init, cutoff);
      forall x | x in DeleteProcessed(init, cutoff)
        ensures x.id != last.id && !(x.aggregateId == last.aggregateId && x.version == last.version)
      {
        DeletionSelects(init, cutoff, x);
        var i :| 0 <= i < |init| && init[i] == x;
        assert rows[i] == x && rows[|init|] == last;
      }
      if !(last.processedAt.Some? && last.createdAt < cutoff) {
        FitsKeepsDistinct(DeleteProcessed(init, cutoff), last);
      }
    }
  }

  // ---------- the publisher's statements ----------

  /** One update of one row: mark_as_published, mark_as_failed, or the bare update that marks a row dead. */
  datatype Change = SetPublished(at: Time) | CountFailure(message: string) | SetDead(at: Time)

  function Changed(r: OutboxRow, c: Change): OutboxRow {
    match c
    case SetPublished(at) => if r.publishedAt.None? then r.(publishedAt := Some(at), processedAt := Some(at)) else r
    case CountFailure(message) => r.(errorMessage := Some(message), retryCount := r.retryCount + 1)
    case SetDead(at) => r.(processedAt := Some(at))
  }

  function AllChanged(r: OutboxRow, changes: seq<Change>): OutboxRow {
    if changes == [] then r else Changed(AllChanged(r, changes[..|changes| - 1]), changes[|changes| - 1])
  }

  function Failures(changes: seq<Change>): nat {
    if changes == [] then 0
    else Failures(changes[..|changes| - 1]) + if changes[|changes| - 1].CountFailure? then 1 else 0
  }

  function LastMessage(changes: seq<Change>): Option<string> {
    if changes == [] then None
    else
      match changes[|changes| - 1]
      case CountFailure(message) => Some(message)
      case _ => LastMessage(changes[..|changes| - 1])
  }

  function FirstReport(changes: seq<Change>): Option<Time> {
    if changes == [] then None
    else if FirstReport(changes[..|changes| - 1]).Some? then FirstReport(changes[..|changes| - 1])
    else if changes[|changes| - 1].SetPublished? then Some(changes[|changes| - 1].at)
    else None
  }

  /** When the row left the queue for the last time: at its first good report, or at a later burial. */
  function LastEnd(changes: seq<Change>): Option<Time> {
    if changes == [] then None
    else
      var init := changes[..|changes| - 1];
      match changes[|changes| - 1]
      case SetDead(at) => Some(at)
      case SetPublished(at) => if FirstReport(init).None? then Some(at) else LastEnd(init)
      case CountFailure(_) => LastEnd(init)
  }

  /**
    A row tells its own history: as many retries as failures were counted, the latest message, the time of the first good
    report however many follow, and when it left the queue. What it carries never changes.
   */
  lemma {:induction false} RowTellsItsHistory(rows: seq<OutboxRow>, a: Id, id: Id, e: Event, at: Time, changes: seq<Change>)
    ensures var r := NewRow(rows, a, id, e, at);
            AllChanged(r, changes) == OutboxRow(id, a, r.version, e, at, FirstReport(changes), LastEnd(changes),
                                                Failures(changes), LastMessage(changes))
  {
    if changes != [] {
      RowTellsItsHistory(rows, a, id, e, at, changes[..|changes| - 1]);
    }
  }

  function Update(rows: seq<OutboxRow>, id: Id, c: Change): (r: seq<OutboxRow>)
    ensures |r| == |rows|
    ensures forall i :: 0 <= i < |rows| ==> r[i] == if rows[i].id == id then Changed(rows[i], c) else rows[i]
  {
    seq(|rows|, i requires 0 <= i < |rows| => if rows[i].id == id then Changed(rows[i], c) else rows[i])
  }

  predicate HasRow(rows: seq<OutboxRow>, id: Id) {
    exists r :: r in rows && r.id == id
  }

  lemma UpdateKeepsDistinct(rows: seq<OutboxRow>, id: Id, c: Change)
    requires Distinct(rows)
    ensures Distinct(Update(rows, id, c))
  {
    var after := Update(rows, id, c);
    forall i, j | 0 <= i < j < |after|
      ensures after[i].id != after[j].id
      ensures !(after[i].aggregateId == after[j].aggregateId && after[i].version == after[j].version)
    {
      assert rows[i].id != rows[j].id;
    }
  }

  function Unprocessed(rows: seq<OutboxRow>): seq<OutboxRow> {
    if rows == [] then []
    else
      var last := rows[|rows| - 1];
      Unprocessed(rows[..|rows| - 1]) + (if last.processedAt.None? then [last] else [])
  }

  /** SKIP LOCKED: the rows no other publisher is reading at this moment. */
  function Unlocked(rows: seq<OutboxRow>, locked: set<Id>): seq<OutboxRow> {
    if rows == [] then []
    else
      var last := rows[|rows| - 1];
      Unlocked(rows[..|rows| - 1], locked) + (if last.id in locked then [] else [last])
  }

  lemma {:induction false} UnlockedSelects(rows: seq<OutboxRow>, locked: set<Id>, r: OutboxRow)
    ensures r in Unlocked(rows, locked) <==> r in rows && r.id !in locked
  {
    if rows != [] {
      UnlockedSelects(rows[..|rows| - 1], locked, r);
      assert rows == rows[..|rows| - 1] + [rows[|rows| - 1]];
    }
  }

  lemma {:induction false} NothingLocked(rows: seq<OutboxRow>)
    ensures Unlocked(rows, {}) == rows
  {
    if rows != [] {
      NothingLocked(rows[..|rows| - 1]);
    }
  }

  lemma {:induction false} UnlockedIsDistinct(rows: seq<OutboxRow>, locked: set<Id>)
    requires DistinctIds(rows)
    ensures DistinctIds(Unlocked(rows, locked))
  {
    if rows != [] {
      var init, last := rows[..|rows| - 1], rows[|rows| - 1];
      UnlockedIsDistinct(init, locked);
      forall x | x in Unlocked(init, locked) ensures x.id != last.id {
        UnlockedSelects(init, locked, x);
        var i :| 0 <= i < |init| && init[i] == x;
        assert rows[i] == x;
      }
    }
  }

  function Oldest(rows: seq<OutboxRow>): seq<OutboxRow> {
    OrderBy(rows, (r: OutboxRow) => r.createdAt)
  }

  function Batch(rows: seq<OutboxRow>, limit: nat): seq<OutboxRow> {
    var queue := Oldest(Unprocessed(rows));
    if |queue| <= limit then queue else queue[..limit]
  }

  lemma {:induction false} UnprocessedSelects(rows: seq<OutboxRow>, r: OutboxRow)
    ensures r in Unprocessed(rows) <==> r in rows && r.processedAt.None?
  {
    if rows != [] {
      UnprocessedSelects(rows[..|rows| - 1], r);
      assert rows == rows[..|rows| - 1] + [rows[|rows| - 1]];
    }
  }

  lemma QueueIs(rows: seq<OutboxRow>)
    ensures Ascending(Oldest(Unprocessed(rows)), (x: OutboxRow) => x.createdAt)
    ensures forall r :: r in Oldest(Unprocessed(rows)) <==> r in rows && r.processedAt.None?
  {
    var due := Unprocessed(rows);
    OrderByIs(due, (x: OutboxRow) => x.createdAt);
    forall r ensures r in Oldest(due) <==> r in rows && r.processedAt.None? {
      UnprocessedSelects(rows, r);
      assert r in Oldest(due) <==> r in multiset(Oldest(due));
    }
  }

  lemma BatchIsTheFront(rows: seq<OutboxRow>, limit: nat, r: OutboxRow)
    ensures var batch := Batch(rows, limit);
            && |batch| <= limit && Ascending(batch, (x: OutboxRow) => x.createdAt)
            && (r in batch ==> r in rows && r.processedAt.None?)
            && (r in rows && r.processedAt.None? && r !in batch ==>
                  |batch| == limit && forall x :: x in batch ==> x.createdAt <= r.createdAt)
  {
    var queue, batch := Oldest(Unprocessed(rows)), Batch(rows, limit);
    QueueIs(rows);
    assert batch == queue[..|batch|];
    if r in queue && r !in batch {
      LeftOutIsNoOlder(queue, |batch|, r);
    }
  }

  /**
    The batch holds rows that are due and unlocked, oldest first; a due row is left out only when another publisher
    holds it, or the batch is full of rows at least as old.
   */
  lemma BatchIsTheOldest(rows: seq<OutboxRow>, locked: set<Id>, limit: nat, r: OutboxRow)
    ensures var batch := Batch(Unlocked(rows, locked), limit);
            && |batch| <= limit && Ascending(batch, (x: OutboxRow) => x.createdAt)
            && (r in batch ==> r in rows && r.processedAt.None? && r.id !in locked)
            && (r in rows && r.processedAt.None? && r !in batch ==>
                  r.id in locked || (|batch| == limit && forall x :: x in batch ==> x.createdAt <= r.createdAt))
  {
    UnlockedSelects(rows, locked, r);
    BatchIsTheFront(Unlocked(rows, locked), limit, r);
  }

  lemma LeftOutIsNoOlder(queue: seq<OutboxRow>, n: nat, r: OutboxRow)
    requires n <= |queue| && Ascending(queue, (x: OutboxRow) => x.createdAt) && r in queue && r !in queue[..n]
    ensures n < |queue| && forall x :: x in queue[..n] ==> x.createdAt <= r.createdAt
  {
    var key := (x: OutboxRow) => x.createdAt;
    var j :| 0 <= j < |queue| && queue[j] == r;
    assert queue == queue[..n] + queue[n..];
    forall x | x in queue[..n] ensures x.createdAt <= r.createdAt {
      var i :| 0 <= i < n && queue[..n][i] == x;
      assert key(queue[i]) <= key(queue[j]);
    }
  }

  ghost predicate DistinctIds(rows: seq<OutboxRow>) {
    forall i, j :: 0 <= i < j < |rows| ==> rows[i].id != rows[j].id
  }

  lemma {:induction false} DistinctIdsOccurOnce(rows: seq<OutboxRow>, x: OutboxRow)
    requires DistinctIds(rows)
    ensures multiset(rows)[x] <= 1
  {
    if rows != [] {
      var init, last := rows[..|rows| - 1], rows[|rows| - 1];
      assert rows == init + [last];
      DistinctIdsOccurOnce(init, x);
    }
  }

  lemma DistinctIdsInAnyOrder(rows: seq<OutboxRow>, order: seq<OutboxRow>)
    requires DistinctIds(rows) && multiset(rows) == multiset(order)
    ensures DistinctIds(order)
  {
    forall i, j | 0 <= i < j < |order| ensures order[i].id != order[j].id {
      if order[i].id == order[j].id {
        var x := order[i];
        SameRows(rows, order, x);
        SameRows(rows, order, order[j]);
        assert order[j] == x;
        assert order == order[..j] + order[j..];
        assert x in order[..j] && x in order[j..];
        DistinctIdsOccurOnce(rows, x);
      }
    }
  }

  lemma {:induction false} UnprocessedIsDistinct(rows: seq<OutboxRow>)
    requires DistinctIds(rows)
    ensures DistinctIds(Unprocessed(rows))
  {
    if rows != [] {
      var init, last := rows[..|rows| - 1], rows[|rows| - 1];
      UnprocessedIsDistinct(init);
      forall x | x in Unprocessed(init) ensures x.id != last.id {
        UnprocessedSelects(init, x);
        var i :| 0 <= i < |init| && init[i] == x;
        assert rows[i] == x;
      }
    }
  }

  /** A batch names each of its rows once. */
  lemma BatchIsDistinct(rows: seq<OutboxRow>, locked: set<Id>, limit: nat)
    requires Distinct(rows)
    ensures DistinctIds(Batch(Unlocked(rows, locked), limit))
  {
    var free := Unlocked(rows, locked);
    UnlockedIsDistinct(rows, locked);
    UnprocessedIsDistinct(free);
    OrderByIs(Unprocessed(free), (r: OutboxRow) => r.createdAt);
    DistinctIdsInAnyOrder(Unprocessed(free), Oldest(Unprocessed(free)));
  }

  /** Whatever is due and unlocked, the batch is not empty. */
  lemma SomeBatch(rows: seq<OutboxRow>, limit: nat)
    requires Unprocessed(rows) != [] && limit > 0
    ensures Batch(rows, limit) != []
  {
    OrderByIs(Unprocessed(rows), (r: OutboxRow) => r.createdAt);
    assert |multiset(Oldest(Unprocessed(rows)))| == |multiset(Unprocessed(rows))|;
  }

  // ---------- the repository ----------

  class OutboxRepository {
    const db: Database

    constructor (db: Database)
      ensures this.db == db
    {
      this.db := db;
    }

    method Save(a: Id, id: Id, e: Event, at: Time, rivals: seq<seq<OutboxRow>>) returns (ok: bool)
      requires |rivals| == MAX_RETRIES
      modifies db`outbox
      ensures Saved(ok, db.outbox) == SaveWith(old(db.outbox), a, id, e, at, rivals)
      ensures ok <==> exists k :: 0 <= k < 3 && !Beaten(RowsBefore(old(db.outbox), rivals, k), a, id, rivals[k])
    {
      SaveFailsIffAlwaysBeaten(db.outbox, a, id, e, at, rivals);
      var attempt := 0;
      while attempt < MAX_RETRIES
        invariant 0 <= attempt <= MAX_RETRIES
        invariant SaveWith(old(db.outbox), a, id, e, at, rivals)
               == SaveWith(db.outbox, a, id, e, at, rivals[attempt..])
      {
        var nextVersion := MaxVersion(db.outbox, a) + 1;
        // other transactions commit here
        db.outbox := db.outbox + rivals[attempt];
        var row := OutboxRow(id, a, nextVersion, e, at, None, None, 0, None);
        if Fits(db.outbox, row) {
          db.outbox := db.outbox + [row];
          return true;
        }
        assert rivals[attempt..][1..] == rivals[attempt + 1..];
        attempt := attempt + 1;
      }
      ok := false;
    }

    /** locked: the rows other publishers hold while this query runs. */
    method GetUnpublished(limit: nat, locked: set<Id>) returns (batch: seq<OutboxRow>)
      ensures batch == Batch(Unlocked(db.outbox, locked), limit)
    {
      var rows, due := db.outbox, [];
      for i := 0 to |rows|
        invariant due == Unprocessed(Unlocked(rows[..i], locked))
      {
        assert rows[..i + 1][..i] == rows[..i];
        var free := Unlocked(rows[..i], locked);
        assert (free + [rows[i]])[..|free|] == free;
        assert free + [] == free;
        if rows[i].processedAt.None? && rows[i].id !in locked {
          due := due + [rows[i]];
        }
      }
      assert rows[..|rows|] == rows;
      var queue := Oldest(due);
      batch := if |queue| <= limit then queue else queue[..limit];
    }

    /** False stands for OutboxNotFoundError. */
    method MarkAsPublished(id: Id, now: Time) returns (found: bool)
      modifies db`outbox
      ensures db.outbox == Update(old(db.outbox), id, SetPublished(now))
      ensures found <==> HasRow(old(db.outbox), id)
    {
      var rows := db.outbox;
      var updated := exists r :: r in rows && r.id == id && r.publishedAt.None?;
      db.outbox := Update(rows, id, SetPublished(now));
      found := updated || HasRow(db.outbox, id);
      FoundAgain(rows, id, SetPublished(now));
    }

    method MarkAsFailed(id: Id, error: string) returns (found: bool)
      modifies db`outbox
      ensures db.outbox == Update(old(db.outbox), id, CountFailure(error))
      ensures found <==> HasRow(old(db.outbox), id)
    {
      found := HasRow(db.outbox, id);
      db.outbox := Update(db.outbox, id, CountFailure(error));
    }
  }

  lemma FoundAgain(rows: seq<OutboxRow>, id: Id, c: Change)
    ensures HasRow(Update(rows, id, c), id) <==> HasRow(rows, id)
  {
    var after := Update(rows, id, c);
    if HasRow(rows, id) {
      var i :| 0 <= i < |rows| && rows[i].id == id;
      assert after[i] in after && after[i].id == id;
    }
    if HasRow(after, id) {
      var i :| 0 <= i < |after| && after[i].id == id;
      assert rows[i] in rows && rows[i].id == id;
    }
  }
}
