/** Store and outbox in runs with the admin's deletions of old processed rows. */
module Purges {
  import opened Basics
  import opened Payments
  import opened Storage
  import opened Outbox
  import opened EventStore
  import opened WriteSide
  import LockStep

  /** The outbox rows carry some of the stored events, in stream order. */
  ghost predicate Within(out: seq<OutboxRow>, rows: seq<StoreRow>)
    decreases |rows|
  {
    out == []
    || (rows != []
        && ((out[|out| - 1].event == rows[|rows| - 1].event && Within(out[..|out| - 1], rows[..|rows| - 1]))
            || Within(out, rows[..|rows| - 1])))
  }

  function VersionIn(r: OutboxRow): int {
    r.version
  }

  ghost predicate Trails(t: Tables) {
    forall a: Id ::
      Within(OutboxOf(t.outbox, a), RowsOf(t.eventStore, a)) && StrictlyAscending(OutboxOf(t.outbox, a), VersionIn)
  }

  lemma WithinSnoc(out: seq<OutboxRow>, rows: seq<StoreRow>, o: OutboxRow, r: StoreRow)
    requires Within(out, rows) && o.event == r.event
    ensures Within(out + [o], rows + [r])
  {
    assert (out + [o])[..|out|] == out && (rows + [r])[..|rows|] == rows;
  }

  lemma {:induction false} WithinInit(out: seq<OutboxRow>, rows: seq<StoreRow>)
    requires out != [] && Within(out, rows)
    ensures Within(out[..|out| - 1], rows)
    decreases |rows|
  {
    var init := rows[..|rows| - 1];
    if out[|out| - 1].event == rows[|rows| - 1].event && Within(out[..|out| - 1], init) {
    } else {
      WithinInit(out, init);
    }
  }

  /** Deleting rows leaves the others in order. */
  lemma {:induction false} DeletionStaysWithin(out: seq<OutboxRow>, rows: seq<StoreRow>, cutoff: Time)
    requires Within(out, rows)
    ensures Within(DeleteProcessed(out, cutoff), rows)
    decreases |rows|, |out|
  {
    if out != [] {
      var init, last := out[..|out| - 1], out[|out| - 1];
      if last.processedAt.Some? && last.createdAt < cutoff {
        WithinInit(out, rows);
        DeletionStaysWithin(init, rows, cutoff);
        assert DeleteProcessed(init, cutoff) + [] == DeleteProcessed(init, cutoff);
      } else if last.event == rows[|rows| - 1].event && Within(init, rows[..|rows| - 1]) {
        DeletionStaysWithin(init, rows[..|rows| - 1], cutoff);
        WithinSnoc(DeleteProcessed(init, cutoff), rows[..|rows| - 1], last, rows[|rows| - 1]);
        assert rows == rows[..|rows| - 1] + [rows[|rows| - 1]];
      } else {
        DeletionStaysWithin(out, rows[..|rows| - 1], cutoff);
      }
    }
  }

  /** Selecting a payment's rows and deleting old ones can be done in either order. */
  lemma {:induction false} DeletionCommutes(outbox: seq<OutboxRow>, cutoff: Time, a: Id)
    ensures OutboxOf(DeleteProcessed(outbox, cutoff), a) == DeleteProcessed(OutboxOf(outbox, a), cutoff)
  {
    if outbox != [] {
      var init, last := outbox[..|outbox| - 1], outbox[|outbox| - 1];
      DeletionCommutes(init, cutoff, a);
      OutboxOfSnoc(DeleteProcessed(init, cutoff), last, a);
      var own := OutboxOf(init, a);
      assert (own + [last])[..|own|] == own;
      assert DeleteProcessed(init, cutoff) + [] == DeleteProcessed(init, cutoff);
      assert own + [] == own && DeleteProcessed(own, cutoff) + [] == DeleteProcessed(own, cutoff);
    }
  }

  lemma AscendingSnocIn(out: seq<OutboxRow>, o: OutboxRow)
    requires StrictlyAscending(out, VersionIn) && forall x :: x in out ==> x.version < o.version
    ensures StrictlyAscending(out + [o], VersionIn)
  {
  }

  lemma {:induction false} DeletionStaysAscending(out: seq<OutboxRow>, cutoff: Time)
    requires StrictlyAscending(out, VersionIn)
    ensures StrictlyAscending(DeleteProcessed(out, cutoff), VersionIn)
  {
    if out != [] {
      var init, last := out[..|out| - 1], out[|out| - 1];
      DeletionStaysAscending(init, cutoff);
      forall x | x in DeleteProcessed(init, cutoff) ensures x.version < last.version {
        DeletionSelects(init, cutoff, x);
        var i :| 0 <= i < |init| && init[i] == x;
        assert VersionIn(out[i]) < VersionIn(out[|out| - 1]);
      }
      if !(last.processedAt.Some? && last.createdAt < cutoff) {
        AscendingSnocIn(DeleteProcessed(init, cutoff), last);
      }
    }
  }

  lemma PurgeKeepsTrail(t: Tables, cutoff: Time)
    requires Trails(t)
    ensures Trails(t.(outbox := DeleteProcessed(t.outbox, cutoff)))
  {
    var u := t.(outbox := DeleteProcessed(t.outbox, cutoff));
    forall a: Id
      ensures Within(OutboxOf(u.outbox, a), RowsOf(u.eventStore, a))
      ensures StrictlyAscending(OutboxOf(u.outbox, a), VersionIn)
    {
      DeletionCommutes(t.outbox, cutoff, a);
      DeletionStaysWithin(OutboxOf(t.outbox, a), RowsOf(t.eventStore, a), cutoff);
      DeletionStaysAscending(OutboxOf(t.outbox, a), cutoff);
    }
  }

  lemma OneStreamKeepsTrail(outbox: seq<OutboxRow>, log: seq<StoreRow>, o: OutboxRow, r: StoreRow, b: Id)
    requires Within(OutboxOf(outbox, b), RowsOf(log, b)) && StrictlyAscending(OutboxOf(outbox, b), VersionIn)
    requires o.aggregateId == r.aggregateId && o.event == r.event && o.version == MaxVersion(outbox, o.aggregateId) + 1
    ensures Within(OutboxOf(outbox + [o], b), RowsOf(log + [r], b))
    ensures StrictlyAscending(OutboxOf(outbox + [o], b), VersionIn)
  {
    RowsOfSnoc(log, r, b);
    OutboxOfSnoc(outbox, o, b);
    if r.aggregateId == b {
      WithinSnoc(OutboxOf(outbox, b), RowsOf(log, b), o, r);
      forall x | x in OutboxOf(outbox, b) ensures x.version < o.version {
        LockStep.OutboxOfMembers(outbox, b, x);
        MaxIsUpperBound(outbox, b, x);
      }
      AscendingSnocIn(OutboxOf(outbox, b), o);
    } else {
      assert OutboxOf(outbox, b) + [] == OutboxOf(outbox, b) && RowsOf(log, b) + [] == RowsOf(log, b);
    }
  }

  lemma OneRowKeepsTrail(t: Tables, debug: bool, a: Id, version: int, e: Event, s: Stamp)
    requires Trails(t) && AppendOne(t, debug, a, version, e, s).Ok?
    ensures Trails(AppendOne(t, debug, a, version, e, s).value)
  {
    AppendOneShape(t, debug, a, version, e, s);
    var u := AppendOne(t, debug, a, version, e, s).value;
    var row, out := StoreRow(s.rowId, a, version, e, s.at), NewRow(t.outbox, a, s.outboxId, e, s.at);
    forall b: Id
      ensures Within(OutboxOf(u.outbox, b), RowsOf(u.eventStore, b))
      ensures StrictlyAscending(OutboxOf(u.outbox, b), VersionIn)
    {
      OneStreamKeepsTrail(t.outbox, t.eventStore, out, row, b);
    }
  }

  lemma {:induction false} AppendKeepsTrail(t: Tables, debug: bool, a: Id, expected: int, events: seq<Event>,
                                            stamps: seq<Stamp>)
    requires |stamps| == |events| && Trails(t) && AppendAll(t, debug, a, expected, events, stamps).Ok?
    ensures Trails(AppendAll(t, debug, a, expected, events, stamps).value)
    decreases |events|
  {
    if events != [] {
      OneRowKeepsTrail(t, debug, a, expected + 1, events[0], stamps[0]);
      AppendKeepsTrail(AppendOne(t, debug, a, expected + 1, events[0], stamps[0]).value, debug, a, expected + 1,
                       events[1..], stamps[1..]);
    }
  }

  lemma CommitKeepsTrail(t: Tables, debug: bool, a: Aggregate, stamps: seq<Stamp>)
    requires |stamps| == |a.uncommitted| && Trails(t) && Commit(t, debug, a, stamps).Ok?
    ensures Trails(Commit(t, debug, a, stamps).value)
  {
    AppendKeepsTrail(t, debug, a.core.paymentId, a.version - |a.uncommitted|, a.uncommitted, stamps);
  }

  lemma SaveKeepsTrail(s: System, c: nat, stamps: seq<Stamp>, debug: bool)
    requires Trails(s.db)
    ensures Trails(SaveStep(s, c, stamps, debug).db)
  {
    if c in s.editing && |stamps| == |s.editing[c].uncommitted| {
      var r := Commit(s.db, debug, s.editing[c], stamps);
      if r.Ok? {
        CommitKeepsTrail(s.db, debug, s.editing[c], stamps);
        assert SaveStep(s, c, stamps, debug).db == r.value;
      }
    }
  }

  /** Rows alike in event and version are as good as each other. */
  ghost predicate SameEvents(a: seq<OutboxRow>, b: seq<OutboxRow>) {
    |a| == |b| && forall i :: 0 <= i < |a| ==> a[i].event == b[i].event && a[i].version == b[i].version
  }

  lemma {:induction false} SameEventsStayWithin(a: seq<OutboxRow>, b: seq<OutboxRow>, rows: seq<StoreRow>)
    requires SameEvents(a, b) && Within(a, rows)
    ensures Within(b, rows)
    decreases |rows|
  {
    if a != [] {
      var init := rows[..|rows| - 1];
      if a[|a| - 1].event == rows[|rows| - 1].event && Within(a[..|a| - 1], init) {
        SameEventsStayWithin(a[..|a| - 1], b[..|b| - 1], init);
      } else {
        SameEventsStayWithin(a, b, init);
      }
    }
  }

  lemma TouchKeepsTrail(s: System, i: nat, publishedAt: Option<Time>, processedAt: Option<Time>, retryCount: nat,
                        errorMessage: Option<string>)
    requires Trails(s.db)
    ensures Trails(TouchStep(s, i, publishedAt, processedAt, retryCount, errorMessage).db)
  {
    if i < |s.db.outbox| {
      var r := s.db.outbox[i].(publishedAt := publishedAt, processedAt := processedAt,
                               retryCount := retryCount, errorMessage := errorMessage);
      forall a: Id
        ensures Within(OutboxOf(s.db.outbox[i := r], a), RowsOf(s.db.eventStore, a))
        ensures StrictlyAscending(OutboxOf(s.db.outbox[i := r], a), VersionIn)
      {
        LockStep.TouchKeepsSelection(s.db.outbox, i, r, a);
        SameEventsStayWithin(OutboxOf(s.db.outbox, a), OutboxOf(s.db.outbox[i := r], a), RowsOf(s.db.eventStore, a));
        SameEventsStayAscending(OutboxOf(s.db.outbox, a), OutboxOf(s.db.outbox[i := r], a));
      }
    }
  }

  lemma SameEventsStayAscending(a: seq<OutboxRow>, b: seq<OutboxRow>)
    requires SameEvents(a, b) && StrictlyAscending(a, VersionIn)
    ensures StrictlyAscending(b, VersionIn)
  {
    forall i, j | 0 <= i < j < |b| ensures VersionIn(b[i]) < VersionIn(b[j]) {
      assert VersionIn(a[i]) < VersionIn(a[j]);
    }
  }

  lemma StepKeepsTrail(s: System, step: Step, debug: bool)
    requires Trails(s.db)
    ensures Trails(Next(s, step, debug).db)
  {
    match step {
      case Save(c, stamps) => SaveKeepsTrail(s, c, stamps, debug);
      case Purge(cutoff) => PurgeKeepsTrail(s.db, cutoff);
      case Touch(i, p, q, n, m) => TouchKeepsTrail(s, i, p, q, n, m);
      case _ =>
    }
  }

  /**
    With deletions at any time: in every run each payment's live outbox rows carry strictly growing version numbers, and
    in that order their events are some of its stream's events in stream order.
   */
  lemma {:induction false} LiveRowsFollowTheStream(steps: seq<Step>, debug: bool)
    ensures Trails(Run(steps, debug).db)
  {
    if steps != [] {
      LiveRowsFollowTheStream(steps[..|steps| - 1], debug);
      StepKeepsTrail(Run(steps[..|steps| - 1], debug), steps[|steps| - 1], debug);
    }
  }
}
