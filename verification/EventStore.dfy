/** Appending to and loading from the event store. */
module EventStore {
  import opened Basics
  import opened Payments
  import opened Streams
  import opened Storage
  import opened Projection
  import opened Outbox

  /** What one insert takes from outside: fresh primary keys and the clock. */
  datatype Stamp = Stamp(rowId: Id, outboxId: Id, at: Time)

  datatype AppendError = ConcurrencyConflict | OutboxSaveFailed | ProjectionFailed(error: ProjectionError)

  /** The primary key and the unique (aggregate_id, aggregate_version) constraint reject the row. */
  predicate Clashes(log: seq<StoreRow>, r: StoreRow) {
    exists x :: x in log && (x.id == r.id || (x.aggregateId == r.aggregateId && x.version == r.version))
  }

  function AppendOne(t: Tables, debug: bool, a: Id, version: int, e: Event, s: Stamp): Result<Tables, AppendError> {
    var row := StoreRow(s.rowId, a, version, e, s.at);
    var published := NewRow(t.outbox, a, s.outboxId, e, s.at);
    if Clashes(t.eventStore, row) then Err(ConcurrencyConflict)
    else if !Fits(t.outbox, published) then Err(OutboxSaveFailed)
    else
      var stored := t.(eventStore := t.eventStore + [row], outbox := t.outbox + [published]);
      if !debug then Ok(stored)
      else
        match ApplyFromEvent(stored, e)
        case Ok(projected) => Ok(projected)
        case Err(error) => Err(ProjectionFailed(error))
  }

  /** The append loop; an error anywhere discards everything. */
  function AppendAll(t: Tables, debug: bool, a: Id, expected: int, events: seq<Event>, stamps: seq<Stamp>)
    : Result<Tables, AppendError>
    requires |stamps| == |events|
    decreases |events|
  {
    if events == [] then Ok(t)
    else
      match AppendOne(t, debug, a, expected + 1, events[0], stamps[0])
      case Ok(u) => AppendAll(u, debug, a, expected + 1, events[1..], stamps[1..])
      case Err(error) => Err(error)
  }

  /** One round of the loop, then the rest of it. */
  lemma AppendPeels(t: Tables, debug: bool, a: Id, expected: int, events: seq<Event>, stamps: seq<Stamp>, i: nat)
    requires |stamps| == |events| && i < |events|
    ensures var one := AppendOne(t, debug, a, expected + 1, events[i], stamps[i]);
            AppendAll(t, debug, a, expected, events[i..], stamps[i..]) ==
            if one.Ok? then AppendAll(one.value, debug, a, expected + 1, events[i + 1..], stamps[i + 1..])
            else Err(one.error)
  {
    assert events[i..][1..] == events[i + 1..] && stamps[i..][1..] == stamps[i + 1..];
  }

  /**
    One round's answer: a taken row id or version is a conflict; with the store's part done, only a taken outbox id stops
    the outbox, and only the projector, with DEBUG on, stops what is left.
   */
  lemma AppendAnswers(t: Tables, debug: bool, a: Id, version: int, e: Event, s: Stamp)
    ensures var taken := exists x :: x in t.eventStore
                                     && (x.id == s.rowId || (x.aggregateId == a && x.version == version));
            var sent := exists x :: x in t.outbox && x.id == s.outboxId;
            var r, projected := AppendOne(t, debug, a, version, e, s), ApplyFromEvent(t, e);
            if taken then r == Err(ConcurrencyConflict)
            else if sent then r == Err(OutboxSaveFailed)
            else if debug && projected.Err? then r == Err(ProjectionFailed(projected.error))
            else r.Ok? && r.value.payments == if debug then projected.value.payments else t.payments
  {
    NextVersionIsFree(t.outbox, a, s.outboxId, e, s.at);
  }

  lemma NothingLeft(t: Tables, debug: bool, a: Id, expected: int, events: seq<Event>, stamps: seq<Stamp>)
    requires |stamps| == |events|
    ensures AppendAll(t, debug, a, expected, events[|events|..], stamps[|events|..]) == Ok(t)
  {
  }

  function NewRows(a: Id, expected: int, events: seq<Event>, stamps: seq<Stamp>): (r: seq<StoreRow>)
    requires |stamps| == |events|
    ensures |r| == |events|
  {
    seq(|events|, i requires 0 <= i < |events| => StoreRow(stamps[i].rowId, a, expected + i + 1, events[i], stamps[i].at))
  }

  lemma AppendOneShape(t: Tables, debug: bool, a: Id, version: int, e: Event, s: Stamp)
    requires AppendOne(t, debug, a, version, e, s).Ok?
    ensures AppendOne(t, debug, a, version, e, s).value.eventStore
         == t.eventStore + [StoreRow(s.rowId, a, version, e, s.at)]
    ensures AppendOne(t, debug, a, version, e, s).value.outbox
         == t.outbox + [NewRow(t.outbox, a, s.outboxId, e, s.at)]
  {
  }

  /** A committed append put exactly these rows at the end of the log. */
  lemma {:induction false} AppendShape(t: Tables, debug: bool, a: Id, expected: int, events: seq<Event>,
                                       stamps: seq<Stamp>)
    requires |stamps| == |events| && AppendAll(t, debug, a, expected, events, stamps).Ok?
    ensures AppendAll(t, debug, a, expected, events, stamps).value.eventStore
         == t.eventStore + NewRows(a, expected, events, stamps)
    decreases |events|
  {
    if events == [] {
      assert t.eventStore + [] == t.eventStore;
    } else {
      AppendOneShape(t, debug, a, expected + 1, events[0], stamps[0]);
      var u := AppendOne(t, debug, a, expected + 1, events[0], stamps[0]).value;
      AppendShape(u, debug, a, expected + 1, events[1..], stamps[1..]);
      assert NewRows(a, expected, events, stamps)
          == [StoreRow(stamps[0].rowId, a, expected + 1, events[0], stamps[0].at)]
             + NewRows(a, expected + 1, events[1..], stamps[1..]);
    }
  }

  /** A version the stream already has makes the whole append fail, wherever in the batch it falls. */
  lemma {:induction false} StaleAppendFails(t: Tables, debug: bool, a: Id, expected: int, events: seq<Event>,
                                            stamps: seq<Stamp>, r: StoreRow)
    requires |stamps| == |events|
    requires r in t.eventStore && r.aggregateId == a && expected < r.version <= expected + |events|
    ensures AppendAll(t, debug, a, expected, events, stamps).Err?
    decreases |events|
  {
    var one := AppendOne(t, debug, a, expected + 1, events[0], stamps[0]);
    if one.Ok? {
      AppendOneShape(t, debug, a, expected + 1, events[0], stamps[0]);
      assert !Clashes(t.eventStore, StoreRow(stamps[0].rowId, a, expected + 1, events[0], stamps[0].at));
      StaleAppendFails(one.value, debug, a, expected + 1, events[1..], stamps[1..], r);
    }
  }

  /** The outbox ids of a batch are new. */
  ghost predicate FreshOutboxIds(t: Tables, stamps: seq<Stamp>) {
    && (forall i, x :: 0 <= i < |stamps| && x in t.outbox ==> x.id != stamps[i].outboxId)
    && (forall i, j :: 0 <= i < j < |stamps| ==> stamps[i].outboxId != stamps[j].outboxId)
  }

  /**
    That failure is reported as a conflict: with new outbox ids and no projector to ask, nothing else can come before
    it.
   */
  lemma {:induction false} StaleAppendConflicts(t: Tables, a: Id, expected: int, events: seq<Event>, stamps: seq<Stamp>,
                                                r: StoreRow)
    requires |stamps| == |events| && FreshOutboxIds(t, stamps)
    requires r in t.eventStore && r.aggregateId == a && expected < r.version <= expected + |events|
    ensures AppendAll(t, false, a, expected, events, stamps) == Err(ConcurrencyConflict)
    decreases |events|
  {
    var one := AppendOne(t, false, a, expected + 1, events[0], stamps[0]);
    AppendAnswers(t, false, a, expected + 1, events[0], stamps[0]);
    if one.Ok? {
      AppendOneShape(t, false, a, expected + 1, events[0], stamps[0]);
      assert !Clashes(t.eventStore, StoreRow(stamps[0].rowId, a, expected + 1, events[0], stamps[0].at));
      assert stamps[0].outboxId == one.value.outbox[|t.outbox|].id;
      StaleAppendConflicts(one.value, a, expected + 1, events[1..], stamps[1..], r);
    }
  }

  // ---------- streams ----------

  function VersionOf(r: StoreRow): int {
    r.version
  }

  /** filter(aggregate_id).order_by(aggregate_version) */
  function StoredStream(log: seq<StoreRow>, a: Id): seq<StoreRow> {
    OrderBy(RowsOf(log, a), VersionOf)
  }

  function LoadFrom(log: seq<StoreRow>, a: Id, now: Time): Result<Aggregate, PaymentError> {
    var rows := StoredStream(log, a);
    match Rehydrate(EventsIn(rows), now)
    case Ok(p) => Ok(Aggregate(p, rows[|rows| - 1].version, []))
    case Err(error) => Err(error)
  }

  /** first is the row of the aggregate with the least version, and the only one with it. */
  ghost predicate IsFirst(log: seq<StoreRow>, a: Id, first: StoreRow) {
    && first in log && first.aggregateId == a
    && forall x :: x in log && x.aggregateId == a ==> first.version < x.version || x == first
  }

  lemma FirstIsRead(log: seq<StoreRow>, a: Id, first: StoreRow)
    requires IsFirst(log, a, first)
    ensures StoredStream(log, a) != [] && StoredStream(log, a)[0] == first
  {
    var rows := StoredStream(log, a);
    OrderByIs(RowsOf(log, a), VersionOf);
    RowsOfMembers(log, a, first);
    SameRows(rows, RowsOf(log, a), first);
    SameRows(RowsOf(log, a), rows, rows[0]);
    RowsOfMembers(log, a, rows[0]);
    var k :| 0 <= k < |rows| && rows[k] == first;
    assert VersionOf(rows[0]) <= VersionOf(rows[k]);
  }

  /**
    What loading answers on any log, sound or not: a missing payment; otherwise the first row by version decides, whatever
    comes behind it: no creation, an unknown type or method, an amount that is not positive, in that order.
   */
  lemma LoadAnswers(log: seq<StoreRow>, a: Id, now: Time, first: StoreRow)
    requires (exists x :: x in log && x.aggregateId == a) ==> IsFirst(log, a, first)
    ensures var r, b := LoadFrom(log, a, now), first.event.body;
            if !exists x :: x in log && x.aggregateId == a then r == Err(PaymentNotFound)
            else if !b.Created? then r == Err(UnexpectedFirstEvent)
            else if ParseType(b.ptype).None? || ParseMethod(b.payMethod).None? then r == Err(UnknownEnumText)
            else if b.amount <= 0 then r == Err(InvalidAmount)
            else r.Ok?
  {
    var rows := StoredStream(log, a);
    OrderByIs(RowsOf(log, a), VersionOf);
    if exists x :: x in log && x.aggregateId == a {
      FirstIsRead(log, a, first);
    } else if rows != [] {
      SameRows(RowsOf(log, a), rows, rows[0]);
      RowsOfMembers(log, a, rows[0]);
    }
  }

  /** Loading follows the version numbers, not the order in which the rows are stored. */
  lemma LoadIgnoresStorageOrder(log: seq<StoreRow>, order: seq<StoreRow>, a: Id, now: Time)
    requires multiset(log) == multiset(order) && StrictlyAscending(RowsOf(log, a), VersionOf)
    ensures LoadFrom(order, a, now) == LoadFrom(log, a, now)
  {
    RowsOfPermutation(log, order, a);
    OrderByIs(RowsOf(log, a), VersionOf);
    OrderByIs(RowsOf(order, a), VersionOf);
    StrictOrderIsUnique(RowsOf(log, a), StoredStream(log, a), VersionOf);
    StrictOrderIsUnique(RowsOf(log, a), StoredStream(order, a), VersionOf);
  }

  lemma {:induction false} RowsOfAppended(log: seq<StoreRow>, more: seq<StoreRow>, a: Id, b: Id)
    requires forall r :: r in more ==> r.aggregateId == a
    ensures RowsOf(log + more, b) == if a == b then RowsOf(log, b) + more else RowsOf(log, b)
  {
    if more == [] {
      assert log + more == log && RowsOf(log, b) + more == RowsOf(log, b);
    } else {
      var init, last := more[..|more| - 1], more[|more| - 1];
      RowsOfAppended(log, init, a, b);
      assert log + more == (log + init) + [last];
      RowsOfSnoc(log + init, last, b);
      if a == b {
        assert RowsOf(log, b) + more == (RowsOf(log, b) + init) + [last];
      }
    }
  }

  /** save(): the aggregate's events go in at the version it had before them. */
  function Commit(t: Tables, debug: bool, a: Aggregate, stamps: seq<Stamp>): Result<Tables, AppendError>
    requires |stamps| == |a.uncommitted|
  {
    AppendAll(t, debug, a.core.paymentId, a.version - |a.uncommitted|, a.uncommitted, stamps)
  }

  // ---------- the repositories ----------

  class EventStoreRepository {
    const db: Database
    const debug: bool
    const outbox: OutboxRepository

    constructor (db: Database, debug: bool)
      ensures this.db == db && this.debug == debug && outbox.db == db
    {
      this.db, this.debug := db, debug;
      outbox := new OutboxRepository(db);
    }

    /** One round of the append loop; the caller rolls back what a failing round leaves. */
    method AppendRow(a: Id, version: int, e: Event, s: Stamp) returns (failure: Option<AppendError>)
      requires outbox.db == db
      modifies db
      ensures match AppendOne(old(db.View()), debug, a, version, e, s)
              case Ok(t) => failure.None? && db.View() == t
              case Err(error) => failure == Some(error)
    {
      var row := StoreRow(s.rowId, a, version, e, s.at);
      if Clashes(db.eventStore, row) {
        return Some(ConcurrencyConflict);
      }
      db.eventStore := db.eventStore + [row];
      var quiet: seq<seq<OutboxRow>> := [[], [], []];
      QuietSave(db.outbox, a, s.outboxId, e, s.at, quiet);
      var saved := outbox.Save(a, s.outboxId, e, s.at, quiet);
      if !saved {
        return Some(OutboxSaveFailed);
      }
      if debug {
        var runner := new PaymentProjectionRunner(db);
        var projected := runner.ApplyEvent(e);
        if !projected {
          return Some(ProjectionFailed(if e.body.Created? then AmountNotPositive else InvariantViolation));
        }
      }
      failure := None;
    }

    /** append(): one transaction over the store, the outbox and, with DEBUG on, the read model. */
    method Append(a: Id, expected: int, events: seq<Event>, stamps: seq<Stamp>) returns (failure: Option<AppendError>)
      requires outbox.db == db
      requires |stamps| == |events|
      modifies db
      ensures match AppendAll(old(db.View()), debug, a, expected, events, stamps)
              case Ok(t) => failure.None? && db.View() == t
              case Err(error) => failure == Some(error) && db.View() == old(db.View())
    {
      var before := db.View();
      var version := expected;
      var i := 0;
      assert events[0..] == events && stamps[0..] == stamps;
      while i < |events|
        invariant 0 <= i <= |events| && version == expected + i
        invariant AppendAll(before, debug, a, expected, events, stamps)
               == AppendAll(db.View(), debug, a, version, events[i..], stamps[i..])
      {
        AppendPeels(db.View(), debug, a, version, events, stamps, i);
        version := version + 1;
        failure := AppendRow(a, version, events[i], stamps[i]);
        if failure.Some? {
          db.Restore(before);
          return;
        }
        i := i + 1;
      }
      NothingLeft(db.View(), debug, a, version, events, stamps);
      failure := None;
    }
  }

  /** Without rivals the attempts are one: they succeed, with the next number, unless the id is taken. */
  lemma {:induction false} QuietSave(rows: seq<OutboxRow>, a: Id, id: Id, e: Event, at: Time,
                                     quiet: seq<seq<OutboxRow>>)
    requires quiet != [] && forall k :: 0 <= k < |quiet| ==> quiet[k] == []
    ensures var s := SaveWith(rows, a, id, e, at, quiet);
            && (s.ok <==> Fits(rows, NewRow(rows, a, id, e, at)))
            && s.rows == if s.ok then rows + [NewRow(rows, a, id, e, at)] else rows
    decreases |quiet|
  {
    assert rows + quiet[0] == rows;
    if |quiet| > 1 {
      QuietSave(rows, a, id, e, at, quiet[1..]);
    }
  }

  class PaymentRepository {
    const store: EventStoreRepository

    constructor (store: EventStoreRepository)
      ensures this.store == store
    {
      this.store := store;
    }

    method Load(a: Id, now: Time) returns (r: Result<PaymentAggregate, PaymentError>)
      ensures match LoadFrom(store.db.eventStore, a, now)
              case Ok(view) => r.Ok? && fresh(r.value) && r.value.View() == view
              case Err(error) => r == Err(error)
    {
      var rows := StoredStream(store.db.eventStore, a);
      if rows == [] {
        return Err(PaymentNotFound);
      }
      var first := rows[0].event;
      if !first.body.Created? {
        return Err(UnexpectedFirstEvent);
      }
      var ptype, payMethod := ParseType(first.body.ptype), ParseMethod(first.body.payMethod);
      if ptype.None? || payMethod.None? {
        return Err(UnknownEnumText);
      }
      var made := PaymentAggregate.Initialise(
        first.paymentId, first.walletId, first.userId, first.body.amount, first.body.currency,
        ptype.value, payMethod.value, first.body.reference, first.body.description, now);
      if made.Err? {
        return Err(made.error);
      }
      var aggregate := made.value;
      ghost var events := EventsIn(rows);
      var i := 1;
      while i < |rows|
        invariant 1 <= i <= |rows| && fresh(aggregate)
        invariant aggregate.Core() == Fold(Base(first, now), events[1..][..i - 1])
        invariant aggregate.uncommitted == []
      {
        assert events[1..][..i][..i - 1] == events[1..][..i - 1] && events[1..][i - 1] == rows[i].event;
        aggregate.Handle(rows[i].event);
        i := i + 1;
      }
      assert events[1..][..i - 1] == events[1..];
      aggregate.version := rows[|rows| - 1].version;
      r := Ok(aggregate);
    }

    /** save(): the drained events go in at the version the aggregate had before them. */
    method Save(aggregate: PaymentAggregate, stamps: seq<Stamp>) returns (failure: Option<AppendError>)
      requires store.outbox.db == store.db
      requires |stamps| == |aggregate.uncommitted|
      modifies store.db, aggregate
      ensures var a := old(aggregate.View());
              && aggregate.View() == a.(uncommitted := [])
              && match Commit(old(store.db.View()), store.debug, a, stamps)
                 case Ok(t) => failure.None? && store.db.View() == t
                 case Err(error) => failure == Some(error) && store.db.View() == old(store.db.View())
    {
      var events := aggregate.PopEvents();
      if events == [] {
        return None;
      }
      var expected := aggregate.version - |events|;
      failure := store.Append(aggregate.paymentId, expected, events, stamps);
      if failure.None? {
        aggregate.version := expected + |events|;
      }
    }
  }
}
