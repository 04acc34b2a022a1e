/** The tables the protocols share, and the one database object that holds them. */
module Storage {
  import opened Basics
  import opened Payments

  datatype StoreRow = StoreRow(id: Id, aggregateId: Id, version: int, event: Event, createdAt: Time)

  datatype OutboxRow = OutboxRow(
    id: Id, aggregateId: Id, version: int, event: Event, createdAt: Time,
    publishedAt: Option<Time>, processedAt: Option<Time>, retryCount: nat, errorMessage: Option<string>)

  /** A row of the payment read model; its primary key is the payment's id. */
  datatype PaymentRow = PaymentRow(
    walletId: Id, userId: Id, amount: int, currency: string, ptype: string, payMethod: string,
    status: Status, reference: Option<Id>, description: Option<string>)

  type ReadModel = map<Id, PaymentRow>

  datatype ProjectionState = ProjectionState(version: nat, lastEventId: Option<Id>)

  datatype Tables = Tables(
    eventStore: seq<StoreRow>, outbox: seq<OutboxRow>,
    payments: ReadModel, projection: Option<ProjectionState>)

  class Database {
    var eventStore: seq<StoreRow>
    var outbox: seq<OutboxRow>
    var payments: ReadModel
    var projection: Option<ProjectionState>

    function View(): Tables
      reads this
    {
      Tables(eventStore, outbox, payments, projection)
    }

    /** A transaction's savepoint is rolled back by writing the tables back. */
    method Restore(t: Tables)
      modifies this
      ensures View() == t
    {
      eventStore, outbox, payments, projection := t.eventStore, t.outbox, t.payments, t.projection;
    }
  }

  // ---------- rows of one aggregate ----------

  function RowsOf(log: seq<StoreRow>, a: Id): seq<StoreRow> {
    if log == [] then []
    else RowsOf(log[..|log| - 1], a) + (if log[|log| - 1].aggregateId == a then [log[|log| - 1]] else [])
  }

  function OutboxOf(rows: seq<OutboxRow>, a: Id): seq<OutboxRow> {
    if rows == [] then []
    else OutboxOf(rows[..|rows| - 1], a) + (if rows[|rows| - 1].aggregateId == a then [rows[|rows| - 1]] else [])
  }

  function EventsIn(log: seq<StoreRow>): (r: seq<Event>)
    ensures |r| == |log|
    ensures forall i :: 0 <= i < |log| ==> r[i] == log[i].event
  {
    seq(|log|, i requires 0 <= i < |log| => log[i].event)
  }

  lemma RowsOfSnoc(log: seq<StoreRow>, r: StoreRow, a: Id)
    ensures RowsOf(log + [r], a) == RowsOf(log, a) + (if r.aggregateId == a then [r] else [])
  {
    assert (log + [r])[..|log|] == log;
  }

  lemma OutboxOfSnoc(rows: seq<OutboxRow>, r: OutboxRow, a: Id)
    ensures OutboxOf(rows + [r], a) == OutboxOf(rows, a) + (if r.aggregateId == a then [r] else [])
  {
    assert (rows + [r])[..|rows|] == rows;
  }

  lemma EventsInSnoc(log: seq<StoreRow>, r: StoreRow)
    ensures EventsIn(log + [r]) == EventsIn(log) + [r.event]
  {
  }

  lemma {:induction false} RowsOfMembers(log: seq<StoreRow>, a: Id, r: StoreRow)
    ensures r in RowsOf(log, a) <==> r in log && r.aggregateId == a
  {
    if log != [] {
      RowsOfMembers(log[..|log| - 1], a, r);
      assert log == log[..|log| - 1] + [log[|log| - 1]];
    }
  }

  /** How often each row occurs in the selection of one aggregate. */
  lemma {:induction false} RowsOfMultiplicity(log: seq<StoreRow>, a: Id, r: StoreRow)
    ensures multiset(RowsOf(log, a))[r] == if r.aggregateId == a then multiset(log)[r] else 0
  {
    if log != [] {
      RowsOfMultiplicity(log[..|log| - 1], a, r);
      assert log == log[..|log| - 1] + [log[|log| - 1]];
    }
  }

  lemma RowsOfPermutation(log: seq<StoreRow>, order: seq<StoreRow>, a: Id)
    requires multiset(log) == multiset(order)
    ensures multiset(RowsOf(log, a)) == multiset(RowsOf(order, a))
  {
    forall r ensures multiset(RowsOf(log, a))[r] == multiset(RowsOf(order, a))[r] {
      RowsOfMultiplicity(log, a, r);
      RowsOfMultiplicity(order, a, r);
    }
  }
}
