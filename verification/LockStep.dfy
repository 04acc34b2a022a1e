/** The event store and the outbox advance together. */
module LockStep {
  import opened Basics
  import opened Payments
  import opened Storage
  import opened Outbox
  import opened EventStore
  import opened WriteSide

  ghost predicate Numbered(rows: seq<StoreRow>) {
    forall i :: 0 <= i < |rows| ==> rows[i].version == i + 1
  }

  /** The same events in the same order under the same version numbers. */
  ghost predicate Paired(out: seq<OutboxRow>, rows: seq<StoreRow>) {
    && |out| == |rows|
    && forall i :: 0 <= i < |rows| ==> out[i].version == rows[i].version && out[i].event == rows[i].event
  }

  ghost predicate Paces(t: Tables) {
    forall a: Id :: Paired(OutboxOf(t.outbox, a), RowsOf(t.eventStore, a))
  }

  /** On a gapless selection the maximum is the count. */
  lemma {:induction false} MaxOfNumbered(rows: seq<OutboxRow>, a: Id)
    requires forall i :: 0 <= i < |OutboxOf(rows, a)| ==> OutboxOf(rows, a)[i].version == i + 1
    ensures MaxVersion(rows, a) == |OutboxOf(rows, a)|
  {
    if rows != [] {
      var init, last := rows[..|rows| - 1], rows[|rows| - 1];
      var before := OutboxOf(init, a);
      forall i | 0 <= i < |before| ensures before[i].version == i + 1 {
        assert OutboxOf(rows, a)[i] == before[i];
      }
      MaxOfNumbered(init, a);
      if last.aggregateId == a {
        assert OutboxOf(rows, a)[|before|] == last;
      }
    }
  }

  lemma PairedSnoc(out: seq<OutboxRow>, rows: seq<StoreRow>, o: OutboxRow, r: StoreRow)
    requires Paired(out, rows) && o.version == r.version && o.event == r.event
    ensures Paired(out + [o], rows + [r])
  {
  }

  lemma OneStreamKeepsPace(outbox: seq<OutboxRow>, log: seq<StoreRow>, o: OutboxRow, r: StoreRow, b: Id)
    requires Paired(OutboxOf(outbox, b), RowsOf(log, b))
    requires o.aggregateId == r.aggregateId && o.version == r.version && o.event == r.event
    ensures Paired(OutboxOf(outbox + [o], b), RowsOf(log + [r], b))
  {
    RowsOfSnoc(log, r, b);
    OutboxOfSnoc(outbox, o, b);
    if r.aggregateId == b {
      PairedSnoc(OutboxOf(outbox, b), RowsOf(log, b), o, r);
    }
  }

  lemma OneRowKeepsPace(t: Tables, debug: bool, a: Id, version: int, e: Event, s: Stamp)
    requires Paces(t) && Numbered(RowsOf(t.eventStore, a)) && version == |RowsOf(t.eventStore, a)| + 1
    requires AppendOne(t, debug, a, version, e, s).Ok?
    ensures var u := AppendOne(t, debug, a, version, e, s).value;
            && Paces(u) && Numbered(RowsOf(u.eventStore, a)) && |RowsOf(u.eventStore, a)| == version
  {
    AppendOneShape(t, debug, a, version, e, s);
    var u := AppendOne(t, debug, a, version, e, s).value;
    var row, out := StoreRow(s.rowId, a, version, e, s.at), NewRow(t.outbox, a, s.outboxId, e, s.at);
    assert Paired(OutboxOf(t.outbox, a), RowsOf(t.eventStore, a));
    MaxOfNumbered(t.outbox, a);
    forall b: Id ensures Paired(OutboxOf(u.outbox, b), RowsOf(u.eventStore, b)) {
      OneStreamKeepsPace(t.outbox, t.eventStore, out, row, b);
    }
    RowsOfSnoc(t.eventStore, row, a);
  }

  lemma {:induction false} AppendKeepsPace(t: Tables, debug: bool, a: Id, expected: int, events: seq<Event>,
                                           stamps: seq<Stamp>)
    requires |stamps| == |events|
    requires Paces(t) && Numbered(RowsOf(t.eventStore, a))
    requires events == [] || expected == |RowsOf(t.eventStore, a)|
    requires AppendAll(t, debug, a, expected, events, stamps).Ok?
    ensures Paces(AppendAll(t, debug, a, expected, events, stamps).value)
    decreases |events|
  {
    if events != [] {
      OneRowKeepsPace(t, debug, a, expected + 1, events[0], stamps[0]);
      var u := AppendOne(t, debug, a, expected + 1, events[0], stamps[0]).value;
      AppendKeepsPace(u, debug, a, expected + 1, events[1..], stamps[1..]);
    }
  }

  lemma {:induction false} TouchKeepsSelection(rows: seq<OutboxRow>, i: nat, r: OutboxRow, a: Id)
    requires i < |rows|
    requires r.aggregateId == rows[i].aggregateId && r.version == rows[i].version && r.event == rows[i].event
    ensures var before, after := OutboxOf(rows, a), OutboxOf(rows[i := r], a);
            && |before| == |after|
            && forall k :: 0 <= k < |before| ==> before[k].version == after[k].version && before[k].event == after[k].event
  {
    var n := |rows| - 1;
    var init, last := rows[..n], rows[n];
    if i == n {
      assert rows[i := r][..n] == init;
    } else {
      assert rows[i := r][..n] == init[i := r] && rows[i := r][n] == last;
      TouchKeepsSelection(init, i, r, a);
    }
  }

  predicate NoPurge(steps: seq<Step>) {
    forall i :: 0 <= i < |steps| ==> !steps[i].Purge?
  }

  /**
    Store and outbox in lock-step: in every run without the admin's deletions, each payment's outbox rows are its
    stream's events, in the same order and under the same version numbers; a failed append is a step that leaves both
    tables as they were.
   */
  lemma {:induction false} StoreAndOutboxAgree(steps: seq<Step>, debug: bool)
    requires NoPurge(steps)
    ensures Paces(Run(steps, debug).db)
  {
    if steps != [] {
      var s, step := Run(steps[..|steps| - 1], debug), steps[|steps| - 1];
      StoreAndOutboxAgree(steps[..|steps| - 1], debug);
      EveryRunIsSound(steps[..|steps| - 1], debug);
      match step {
        case Save(c, stamps) => SaveKeepsPace(s, c, stamps, debug);
        case Touch(i, p, q, n, m) => TouchKeepsPace(s, i, p, q, n, m);
        case _ =>
      }
    }
  }

  lemma CommitKeepsPace(s: System, a: Aggregate, stamps: seq<Stamp>, debug: bool)
    requires StreamsOk(s.db.eventStore) && Paces(s.db) && |stamps| == |a.uncommitted|
    requires Builds(RowsOf(s.db.eventStore, a.core.paymentId), a) && Commit(s.db, debug, a, stamps).Ok?
    ensures Paces(Commit(s.db, debug, a, stamps).value)
  {
    CommitIsAtTheEnd(s, a, stamps, debug);
    assert StreamOk(RowsOf(s.db.eventStore, a.core.paymentId), a.core.paymentId);
    AppendKeepsPace(s.db, debug, a.core.paymentId, a.version - |a.uncommitted|, a.uncommitted, stamps);
  }

  lemma SaveKeepsPace(s: System, c: nat, stamps: seq<Stamp>, debug: bool)
    requires Sound(s) && Paces(s.db)
    ensures Paces(SaveStep(s, c, stamps, debug).db)
  {
    if c in s.editing && |stamps| == |s.editing[c].uncommitted| {
      var r := Commit(s.db, debug, s.editing[c], stamps);
      if r.Ok? {
        assert Builds(RowsOf(s.db.eventStore, s.editing[c].core.paymentId), s.editing[c]);
        CommitKeepsPace(s, s.editing[c], stamps, debug);
        assert SaveStep(s, c, stamps, debug).db == r.value;
      }
    }
  }

  lemma TouchKeepsPace(s: System, i: nat, publishedAt: Option<Time>, processedAt: Option<Time>, retryCount: nat,
                       errorMessage: Option<string>)
    requires Paces(s.db)
    ensures Paces(TouchStep(s, i, publishedAt, processedAt, retryCount, errorMessage).db)
  {
    if i < |s.db.outbox| {
      var r := s.db.outbox[i].(publishedAt := publishedAt, processedAt := processedAt,
                               retryCount := retryCount, errorMessage := errorMessage);
      forall a: Id ensures Paired(OutboxOf(s.db.outbox[i := r], a), RowsOf(s.db.eventStore, a)) {
        assert Paired(OutboxOf(s.db.outbox, a), RowsOf(s.db.eventStore, a));
        TouchKeepsSelection(s.db.outbox, i, r, a);
      }
    }
  }

  // ---------- with the admin's deletions ----------

  lemma {:induction false} OutboxOfMembers(rows: seq<OutboxRow>, a: Id, r: OutboxRow)
    ensures r in OutboxOf(rows, a) <==> r in rows && r.aggregateId == a
  {
    if rows != [] {
      OutboxOfMembers(rows[..|rows| - 1], a, r);
      assert rows == rows[..|rows| - 1] + [rows[|rows| - 1]];
    }
  }

  /**
    Lock-step survives the deletion of processed rows for a payment exactly when it has no events or its newest outbox
    row stays: only then does max + 1 still give the version the store will use next.
   */
  lemma NextNumberAfterDeletion(t: Tables, cutoff: Time, a: Id)
    requires Paces(t) && Numbered(RowsOf(t.eventStore, a))
    ensures var rows, out := RowsOf(t.eventStore, a), OutboxOf(t.outbox, a);
            MaxVersion(DeleteProcessed(t.outbox, cutoff), a) == |rows| <==>
            |rows| == 0 || out[|rows| - 1] in DeleteProcessed(t.outbox, cutoff)
  {
    var rows, out := RowsOf(t.eventStore, a), OutboxOf(t.outbox, a);
    assert Paired(out, rows);
    var left := DeleteProcessed(t.outbox, cutoff);
    MaxIsAttained(left, a);
    if |rows| > 0 {
      var newest := out[|rows| - 1];
      OutboxOfMembers(t.outbox, a, newest);
      if newest in left {
        MaxIsUpperBound(left, a, newest);
      }
    }
    if MaxVersion(left, a) != 0 {
      var r :| r in left && r.aggregateId == a && r.version == MaxVersion(left, a);
      DeletionSelects(t.outbox, cutoff, r);
      OutboxOfMembers(t.outbox, a, r);
      var k :| 0 <= k < |out| && out[k] == r;
    }
  }
}
