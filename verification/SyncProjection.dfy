/** The read model against the log: rebuilds in any order, synchronous projection, and wallet totals. */
module SyncProjection {
  import opened Basics
  import opened Payments
  import opened Streams
  import opened Storage
  import opened Projection
  import opened EventStore
  import opened WriteSide

  // ---------- a rebuild that succeeds is right, whatever the clocks were ----------

  /** How far along its life a payment is after an event of this kind. */
  function Rank(r: StoreRow): int {
    match r.event.body
    case Created(_, _, _, _, _, _) => 0
    case Processed => 1
    case Cancelled => 1
    case Failed(_) => 2
    case Succeeded => 3
    case Refunded(_, _, _) => 4
  }

  function StatusOfBody(b: Body): Status {
    match b
    case Created(_, _, _, _, _, _) => PENDING
    case Processed => PROCESSING
    case Cancelled => CANCELLED
    case Failed(_) => FAILED
    case Succeeded => SUCCEEDED
    case Refunded(_, _, _) => REFUNDED
  }

  lemma LiveStatus(events: seq<Event>)
    requires Legal(events)
    ensures Live(events).status == StatusOfBody(events[|events| - 1].body)
  {
    if |events| == 1 {
      LegalBeginning(events);
      assert events[..1] == events;
    } else {
      var p := LastStep(events);
      HandlerStatus(p, events[|events| - 1]);
    }
  }

  lemma HandlerStatus(p: Payment, e: Event)
    requires Follows(p, e)
    ensures When(p, e).status == StatusOfBody(e.body)
  {
  }

  lemma GuardRaisesRank(p: Payment, last: StoreRow, r: StoreRow)
    requires Follows(p, r.event) && p.status == StatusOfBody(last.event.body)
    ensures Rank(last) <= Rank(r)
  {
  }

  lemma LegalRowsStep(init: seq<StoreRow>, r: StoreRow)
    requires init != [] && Legal(EventsIn(init + [r]))
    ensures Legal(EventsIn(init)) && Rank(init[|init| - 1]) <= Rank(r)
  {
    EventsInSnoc(init, r);
    var p := LastStep(EventsIn(init + [r]));
    assert EventsIn(init + [r])[..|init|] == EventsIn(init);
    LiveStatus(EventsIn(init));
    GuardRaisesRank(p, init[|init| - 1], r);
  }

  /** The guards never let a payment go back. */
  lemma {:induction false} LegalRowsAscend(rows: seq<StoreRow>)
    requires Legal(EventsIn(rows))
    ensures Ascending(rows, Rank)
  {
    if |rows| > 1 {
      var init, r := rows[..|rows| - 1], rows[|rows| - 1];
      assert rows == init + [r];
      LegalRowsStep(init, r);
      LegalRowsAscend(init);
      forall x | x in init ensures Rank(x) <= Rank(r) {
        LastIsGreatest(init, Rank, x);
      }
      AscendingSnoc(init, r, Rank);
    }
  }

  lemma ProjectedStatus(row: Option<PaymentRow>, e: Event)
    requires ProjectOne(row, e).Ok?
    ensures ProjectOne(row, e).value.status == StatusOfBody(e.body)
  {
  }

  lemma StrictSnoc(rows: seq<StoreRow>, r: StoreRow)
    requires StrictlyAscending(rows, Rank) && (rows == [] || Rank(rows[|rows| - 1]) < Rank(r))
    ensures StrictlyAscending(rows + [r], Rank)
  {
  }

  /** The rows so far progressed strictly, and the read-model row has the last one's status. */
  ghost predicate Progressed(rows: seq<StoreRow>, row: PaymentRow) {
    && rows != [] && rows[0].event.body.Created? && StrictlyAscending(rows, Rank)
    && row.status == StatusOfBody(rows[|rows| - 1].event.body)
  }

  lemma OneRowProgresses(init: seq<StoreRow>, r: StoreRow, row: PaymentRow)
    requires Progressed(init, row) && !r.event.body.Created? && ProjectOne(Some(row), r.event).Ok?
    ensures Progressed(init + [r], ProjectOne(Some(row), r.event).value)
  {
    ProjectedStatus(Some(row), r.event);
    assert Rank(init[|init| - 1]) < Rank(r);
    StrictSnoc(init, r);
  }

  /** The projector accepts only strict progress, as long as no second creation resets the row. */
  lemma {:induction false} AcceptedRowsProgress(rows: seq<StoreRow>)
    requires rows != [] && RowAfter(None, EventsIn(rows)).Ok?
    requires forall i :: 0 < i < |rows| ==> !rows[i].event.body.Created?
    ensures RowAfter(None, EventsIn(rows)).value.Some? && Progressed(rows, RowAfter(None, EventsIn(rows)).value.value)
  {
    var init, r := rows[..|rows| - 1], rows[|rows| - 1];
    assert EventsIn(rows)[..|rows| - 1] == EventsIn(init);
    var before := RowAfter(None, EventsIn(init));
    assert rows == init + [r];
    if init == [] {
      ProjectedStatus(None, r.event);
    } else {
      AcceptedRowsProgress(init);
      OneRowProgresses(init, r, before.value.value);
    }
  }

  lemma RestOfPermutation(rows: seq<StoreRow>, order: seq<StoreRow>)
    requires multiset(rows) == multiset(order) && rows != [] && order != [] && rows[0] == order[0]
    ensures multiset(rows[1..]) == multiset(order[1..])
  {
    var x, a, b := rows[0], rows[1..], order[1..];
    assert rows == [x] + a && order == [x] + b;
    assert multiset(rows) == multiset{x} + multiset(a);
    assert multiset(order) == multiset{x} + multiset(b);
    assert multiset(a) == multiset(rows) - multiset{x};
  }

  /** The stored creation is unique, so no permutation holds a second one. */
  lemma SecondCreationIsImpossible(rows: seq<StoreRow>, order: seq<StoreRow>)
    requires Legal(EventsIn(rows)) && multiset(rows) == multiset(order) && order != []
    requires order[0].event.body.Created?
    ensures forall i :: 0 < i < |order| ==> !order[i].event.body.Created?
  {
    var first := rows[0];
    forall i | 0 <= i < |order| && order[i].event.body.Created? ensures order[i] == first {
      SameRows(rows, order, order[i]);
      var k :| 0 <= k < |rows| && rows[k] == order[i];
      LegalIdentity(EventsIn(rows), k);
    }
    forall i | 0 < i < |order| ensures !order[i].event.body.Created? {
      if order[i].event.body.Created? {
        assert order[1..][i - 1] == first;
        RestOfPermutation(rows, order);
        SameRows(rows[1..], order[1..], first);
        var k :| 0 <= k < |rows[1..]| && rows[1..][k] == first;
        LegalIdentity(EventsIn(rows), k + 1);
        assert false;
      }
    }
  }

  lemma {:induction false} FirstAcceptedIsCreation(events: seq<Event>)
    requires events != [] && RowAfter(None, events).Ok?
    ensures events[0].body.Created?
  {
    if |events| > 1 {
      FirstAcceptedIsCreation(events[..|events| - 1]);
    } else {
      assert events[..0] == [];
    }
  }

  /** The only order of one payment's rows that the projector accepts is the order they were written in. */
  lemma AcceptedOrderIsTheOrder(rows: seq<StoreRow>, order: seq<StoreRow>)
    requires rows != [] ==> Legal(EventsIn(rows))
    requires multiset(rows) == multiset(order)
    requires RowAfter(None, EventsIn(order)).Ok?
    ensures order == rows
  {
    assert |order| == |multiset(order)| == |multiset(rows)| == |rows|;
    if rows != [] {
      FirstAcceptedIsCreation(EventsIn(order));
      SecondCreationIsImpossible(rows, order);
      AcceptedRowsProgress(order);
      LegalRowsAscend(rows);
      StrictOrderIsUnique(order, rows, Rank);
    }
  }

  lemma OwnEventsEitherWay(log: seq<StoreRow>, order: seq<StoreRow>, p: Id)
    requires RowsCarryTheirPayment(log) && multiset(order) == multiset(log)
    ensures Of(EventsIn(order), p) == EventsIn(RowsOf(order, p))
    ensures Of(EventsIn(log), p) == EventsIn(RowsOf(log, p))
  {
    forall r | r in order ensures r.event.paymentId == r.aggregateId {
      SameRows(log, order, r);
    }
    OwnEventsAreOwnRows(order, p);
    OwnEventsAreOwnRows(log, p);
  }

  lemma AcceptedRebuildKeepsOrder(log: seq<StoreRow>, order: seq<StoreRow>, p: Id)
    requires StreamsOk(log) && RowsCarryTheirPayment(log) && multiset(order) == multiset(log)
    requires ProjectLog(map[], EventsIn(order)).Ok?
    ensures RowsOf(order, p) == RowsOf(log, p)
  {
    OwnEventsEitherWay(log, order, p);
    ProjectionIsPerPayment(map[], EventsIn(order));
    assert OwnFold(map[], EventsIn(order), p).Ok?;
    assert StreamOk(RowsOf(log, p), p);
    RowsOfPermutation(log, order, p);
    AcceptedOrderIsTheOrder(RowsOf(log, p), RowsOf(order, p));
  }

  ghost predicate KeepsOwnOrder(log: seq<StoreRow>, order: seq<StoreRow>) {
    forall p: Id :: RowsOf(order, p) == RowsOf(log, p)
  }

  lemma OwnOrderSuffices(log: seq<StoreRow>, order: seq<StoreRow>)
    requires RowsCarryTheirPayment(log) && multiset(order) == multiset(log) && KeepsOwnOrder(log, order)
    ensures ProjectLog(map[], EventsIn(order)).Ok? <==> ProjectLog(map[], EventsIn(log)).Ok?
    ensures ProjectLog(map[], EventsIn(order)).Ok? ==>
              ProjectLog(map[], EventsIn(order)) == ProjectLog(map[], EventsIn(log))
  {
    forall p: Id ensures Of(EventsIn(order), p) == Of(EventsIn(log), p) {
      OwnEventsEitherWay(log, order, p);
      assert RowsOf(order, p) == RowsOf(log, p);
    }
    OrderAcrossPaymentsIsIrrelevant(map[], EventsIn(order), EventsIn(log));
  }

  lemma OwnOrderIsNecessary(log: seq<StoreRow>, order: seq<StoreRow>)
    requires StreamsOk(log) && RowsCarryTheirPayment(log) && multiset(order) == multiset(log)
    requires ProjectLog(map[], EventsIn(order)).Ok?
    ensures KeepsOwnOrder(log, order)
  {
    forall p: Id ensures RowsOf(order, p) == RowsOf(log, p) {
      AcceptedRebuildKeepsOrder(log, order, p);
    }
  }

  /**
    Replay the rows of a sound log in any order at all. The rebuild succeeds exactly when that order keeps every
    payment's own order and the log itself projects; and then the read model is the projection of the log.
   */
  lemma RebuildIsNeverWrong(log: seq<StoreRow>, order: seq<StoreRow>)
    requires StreamsOk(log) && RowsCarryTheirPayment(log) && multiset(order) == multiset(log)
    ensures ProjectLog(map[], EventsIn(order)).Ok? <==>
              ProjectLog(map[], EventsIn(log)).Ok? && KeepsOwnOrder(log, order)
    ensures ProjectLog(map[], EventsIn(order)).Ok? ==>
              ProjectLog(map[], EventsIn(order)) == ProjectLog(map[], EventsIn(log))
  {
    if ProjectLog(map[], EventsIn(order)).Ok? {
      OwnOrderIsNecessary(log, order);
    }
    if KeepsOwnOrder(log, order) {
      OwnOrderSuffices(log, order);
    }
  }

  // ---------- the projector on a redelivered event ----------

  /** Projecting one event twice over is projecting it once exactly when it is a creation; any other is refused. */
  lemma ReprojectionIsIdempotentIff(m: ReadModel, e: Event)
    requires Project(m, e).Ok?
    ensures var n := Project(m, e).value; Project(n, e) == Ok(n) <==> e.body.Created?
    ensures !e.body.Created? ==> Project(Project(m, e).value, e).Err?
  {
    var n := Project(m, e).value;
    if e.body.Created? {
      assert n[e.paymentId := n[e.paymentId]] == n;
    }
  }

  lemma RowAfterSnoc(row: Option<PaymentRow>, events: seq<Event>, e: Event)
    requires RowAfter(row, events).Ok?
    ensures RowAfter(row, events + [e]) ==
            match ProjectOne(RowAfter(row, events).value, e)
            case Ok(s) => Ok(Some(s))
            case Err(error) => Err(error)
  {
    assert (events + [e])[..|events|] == events;
  }

  /** On a stream that projects, the row is pending only before anything follows the creation. */
  lemma ProjectedIsPendingIff(events: seq<Event>)
    requires Legal(events) && RowAfter(None, events).Ok?
    ensures RowAfter(None, events).value.Some?
    ensures RowAfter(None, events).value.value.status == PENDING <==> |events| == 1
  {
    ProjectorAgainstAggregate(events);
    LiveStatus(events);
    LegalIdentity(events, |events| - 1);
  }

  lemma CreationRow(e: Event)
    requires e.body.Created? && e.body.amount > 0
    ensures ProjectOne(None, e).Ok? && ProjectOne(None, e).value.status == PENDING
    ensures forall row :: ProjectOne(row, e) == ProjectOne(None, e)
    ensures RowAfter(None, [e]) == Ok(Some(ProjectOne(None, e).value))
  {
    assert RowAfter(None, []) == Ok(None);
    RowAfterSnoc(None, [], e);
    assert [] + [e] == [e];
  }

  /**
    A creation redelivered later on is accepted and puts the row back to where it began, which is where it was exactly
    when nothing else had been projected.
   */
  lemma LateCreationResets(events: seq<Event>)
    requires Legal(events) && RowAfter(None, events).Ok?
    ensures RowAfter(None, events + [events[0]]).Ok?
    ensures RowAfter(None, events + [events[0]]) == RowAfter(None, [events[0]])
    ensures RowAfter(None, events + [events[0]]) == RowAfter(None, events) <==> |events| == 1
  {
    RowAfterSnoc(None, events, events[0]);
    LegalBeginning(events);
    CreationRow(events[0]);
    ProjectedIsPendingIff(events);
    if |events| == 1 {
      assert events == [events[0]];
    }
  }

  // ---------- synchronous projection ----------

  /** The projection is enabled and the read model is the projection of the whole store. */
  ghost predicate Synced(t: Tables) {
    && (t.projection.Some? ==> t.projection.value.version == VERSION)
    && ProjectLog(map[], EventsIn(t.eventStore)) == Ok(t.payments)
  }

  lemma OneRowKeepsSynced(t: Tables, a: Id, version: int, e: Event, s: Stamp)
    requires Synced(t) && AppendOne(t, true, a, version, e, s).Ok?
    ensures Synced(AppendOne(t, true, a, version, e, s).value)
  {
    EventsInSnoc(t.eventStore, StoreRow(s.rowId, a, version, e, s.at));
    ProjectLogSnoc(map[], EventsIn(t.eventStore), e);
  }

  lemma {:induction false} AppendKeepsSynced(t: Tables, a: Id, expected: int, events: seq<Event>, stamps: seq<Stamp>)
    requires |stamps| == |events| && Synced(t) && AppendAll(t, true, a, expected, events, stamps).Ok?
    ensures Synced(AppendAll(t, true, a, expected, events, stamps).value)
    decreases |events|
  {
    if events != [] {
      OneRowKeepsSynced(t, a, expected + 1, events[0], stamps[0]);
      var u := AppendOne(t, true, a, expected + 1, events[0], stamps[0]).value;
      AppendKeepsSynced(u, a, expected + 1, events[1..], stamps[1..]);
    }
  }

  lemma CommitKeepsSynced(t: Tables, a: Aggregate, stamps: seq<Stamp>)
    requires |stamps| == |a.uncommitted| && Synced(t) && Commit(t, true, a, stamps).Ok?
    ensures Synced(Commit(t, true, a, stamps).value)
  {
    AppendKeepsSynced(t, a.core.paymentId, a.version - |a.uncommitted|, a.uncommitted, stamps);
  }

  lemma SaveKeepsSynced(s: System, c: nat, stamps: seq<Stamp>)
    requires Synced(s.db)
    ensures Synced(SaveStep(s, c, stamps, true).db)
  {
    if c in s.editing && |stamps| == |s.editing[c].uncommitted| {
      var r := Commit(s.db, true, s.editing[c], stamps);
      if r.Ok? {
        CommitKeepsSynced(s.db, s.editing[c], stamps);
        assert SaveStep(s, c, stamps, true).db == r.value;
      }
    }
  }

  lemma RebuildKeepsSynced(s: System, order: seq<StoreRow>)
    requires Sound(s) && RowsCarryTheirPayment(s.db.eventStore) && Synced(s.db)
    ensures Synced(RebuildStep(s, order).db)
  {
    if multiset(order) == multiset(s.db.eventStore) {
      RebuildIsNeverWrong(s.db.eventStore, order);
    }
  }

  /** With DEBUG on, in every run and after every rebuild, the read model equals the projection of the store. */
  lemma {:induction false} SynchronousProjectionAgrees(steps: seq<Step>)
    ensures Synced(Run(steps, true).db)
  {
    if steps != [] {
      var init := steps[..|steps| - 1];
      var s, step := Run(init, true), steps[|steps| - 1];
      SynchronousProjectionAgrees(init);
      match step {
        case Save(c, stamps) => SaveKeepsSynced(s, c, stamps);
        case Rebuild(order) =>
          EveryRunIsSound(init, true);
          RowsKeepTheirPayment(init, true);
          RebuildKeepsSynced(s, order);
        case _ =>
      }
    }
  }

  /**
    With DEBUG on, the projector's refusals reach the writers: no stored stream has an event after a Failed event, and
    the read model shows every stored payment as its aggregate is.
   */
  lemma ReadModelShowsEveryAggregate(steps: seq<Step>, p: Id)
    ensures var db := Run(steps, true).db;
            var rows := RowsOf(db.eventStore, p);
            && !EventAfterFailure(EventsIn(rows))
            && (p in db.payments <==> rows != [])
            && (rows != [] ==> Legal(EventsIn(rows)) && Shows(db.payments[p], Live(EventsIn(rows)))
                               && OneCreation(EventsIn(rows))
                               && db.payments[p].description == ShownDescription(EventsIn(rows)))
  {
    var db := Run(steps, true).db;
    var rows := RowsOf(db.eventStore, p);
    SynchronousProjectionAgrees(steps);
    EveryRunIsSound(steps, true);
    RowsKeepTheirPayment(steps, true);
    assert StreamOk(rows, p);
    OwnEventsAreOwnRows(db.eventStore, p);
    ProjectionIsPerPayment(map[], EventsIn(db.eventStore));
    assert OwnFold(map[], EventsIn(db.eventStore), p) == Ok(Get(db.payments, p));
    if rows != [] {
      ProjectorAgainstAggregate(EventsIn(rows));
    }
  }

  // ---------- wallet totals ----------

  function Share(row: PaymentRow, wallet: Id, status: Option<Status>): int {
    if row.walletId == wallet && (status.None? || row.status == status.value) then row.amount else 0
  }

  ghost function SumOver(m: ReadModel, keys: set<Id>, wallet: Id, status: Option<Status>): int
    requires keys <= m.Keys
  {
    if keys == {} then 0
    else
      var p :| p in keys;
      Share(m[p], wallet, status) + SumOver(m, keys - {p}, wallet, status)
  }

  /** get_total_amount_by_wallet: the SUM over the filtered rows, zero when there is none. */
  ghost function WalletTotal(m: ReadModel, wallet: Id, status: Option<Status>): int {
    SumOver(m, m.Keys, wallet, status)
  }

  function CreatedShare(e: Event, wallet: Id): int {
    if e.body.Created? && e.walletId == wallet then e.body.amount else 0
  }

  function CreatedTotal(events: seq<Event>, wallet: Id): int {
    if events == [] then 0
    else CreatedTotal(events[..|events| - 1], wallet) + CreatedShare(events[|events| - 1], wallet)
  }

  lemma {:induction false} SumTakesOut(m: ReadModel, keys: set<Id>, wallet: Id, status: Option<Status>, p: Id)
    requires keys <= m.Keys && p in keys
    ensures SumOver(m, keys, wallet, status) == Share(m[p], wallet, status) + SumOver(m, keys - {p}, wallet, status)
    decreases |keys|
  {
    var q :| q in keys
      && SumOver(m, keys, wallet, status) == Share(m[q], wallet, status) + SumOver(m, keys - {q}, wallet, status);
    if p != q {
      SumTakesOut(m, keys - {q}, wallet, status, p);
      SumTakesOut(m, keys - {p}, wallet, status, q);
      assert keys - {q} - {p} == keys - {p} - {q};
    }
  }

  lemma {:induction false} SumDependsOnRows(m: ReadModel, n: ReadModel, keys: set<Id>, wallet: Id, status: Option<Status>)
    requires keys <= m.Keys && keys <= n.Keys && forall p :: p in keys ==> m[p] == n[p]
    ensures SumOver(m, keys, wallet, status) == SumOver(n, keys, wallet, status)
    decreases |keys|
  {
    if keys != {} {
      var p :| p in keys;
      SumTakesOut(m, keys, wallet, status, p);
      SumTakesOut(n, keys, wallet, status, p);
      SumDependsOnRows(m, n, keys - {p}, wallet, status);
    }
  }

  lemma TotalAfterWrite(m: ReadModel, p: Id, row: PaymentRow, wallet: Id, status: Option<Status>)
    ensures WalletTotal(m[p := row], wallet, status) ==
            WalletTotal(m, wallet, status) + Share(row, wallet, status)
            - (if p in m then Share(m[p], wallet, status) else 0)
  {
    var n := m[p := row];
    SumTakesOut(n, n.Keys, wallet, status, p);
    SumDependsOnRows(m, n, m.Keys - {p}, wallet, status);
    if p in m {
      SumTakesOut(m, m.Keys, wallet, status, p);
      assert n.Keys - {p} == m.Keys - {p};
    } else {
      assert n.Keys - {p} == m.Keys == m.Keys - {p};
    }
  }

  ghost predicate CreatedOnce(events: seq<Event>) {
    forall i, j :: 0 <= i < j < |events| && events[i].body.Created? && events[j].body.Created? ==>
      events[i].paymentId != events[j].paymentId
  }

  lemma {:induction false} RowsWereCreated(events: seq<Event>, p: Id) returns (i: nat)
    requires ProjectLog(map[], events).Ok? && p in ProjectLog(map[], events).value
    ensures i < |events| && events[i].body.Created? && events[i].paymentId == p
  {
    var init, e := events[..|events| - 1], events[|events| - 1];
    if e.body.Created? && e.paymentId == p {
      i := |events| - 1;
    } else {
      i := RowsWereCreated(init, p);
    }
  }

  lemma NewCreationIsUnknown(events: seq<Event>, p: Id)
    requires ProjectLog(map[], events).Ok?
    requires forall i :: 0 <= i < |events| && events[i].body.Created? ==> events[i].paymentId != p
    ensures p !in ProjectLog(map[], events).value
  {
    if p in ProjectLog(map[], events).value {
      var i := RowsWereCreated(events, p);
      assert false;
    }
  }

  lemma OnlyCreationsSetAmounts(row: Option<PaymentRow>, e: Event, wallet: Id)
    requires ProjectOne(row, e).Ok? && !e.body.Created?
    ensures row.Some? && Share(ProjectOne(row, e).value, wallet, None) == Share(row.value, wallet, None)
  {
  }

  lemma {:induction false} TotalIsCreatedTotal(events: seq<Event>, wallet: Id)
    requires CreatedOnce(events) && ProjectLog(map[], events).Ok?
    ensures WalletTotal(ProjectLog(map[], events).value, wallet, None) == CreatedTotal(events, wallet)
  {
    if events != [] {
      var init, e := events[..|events| - 1], events[|events| - 1];
      TotalIsCreatedTotal(init, wallet);
      var m := ProjectLog(map[], init).value;
      var row := ProjectOne(Get(m, e.paymentId), e).value;
      TotalAfterWrite(m, e.paymentId, row, wallet, None);
      if e.body.Created? {
        NewCreationIsUnknown(init, e.paymentId);
      } else {
        OnlyCreationsSetAmounts(Get(m, e.paymentId), e, wallet);
      }
    }
  }

  lemma {:induction false} StatusesPartition(m: ReadModel, keys: set<Id>, wallet: Id)
    requires keys <= m.Keys
    ensures SumOver(m, keys, wallet, None) ==
            SumOver(m, keys, wallet, Some(PENDING)) + SumOver(m, keys, wallet, Some(PROCESSING))
            + SumOver(m, keys, wallet, Some(SUCCEEDED)) + SumOver(m, keys, wallet, Some(FAILED))
            + SumOver(m, keys, wallet, Some(CANCELLED)) + SumOver(m, keys, wallet, Some(REFUNDED))
    decreases |keys|
  {
    if keys != {} {
      var p :| p in keys;
      SumTakesOut(m, keys, wallet, None, p);
      SumTakesOut(m, keys, wallet, Some(PENDING), p);
      SumTakesOut(m, keys, wallet, Some(PROCESSING), p);
      SumTakesOut(m, keys, wallet, Some(SUCCEEDED), p);
      SumTakesOut(m, keys, wallet, Some(FAILED), p);
      SumTakesOut(m, keys, wallet, Some(CANCELLED), p);
      SumTakesOut(m, keys, wallet, Some(REFUNDED), p);
      StatusesPartition(m, keys - {p}, wallet);
    }
  }

  /**
    With DEBUG on, in every run a wallet's total is the sum of its created amounts in the log and of its per-status
    totals.
   */
  lemma WalletTotalsAgreeWithLog(steps: seq<Step>, wallet: Id)
    ensures var db := Run(steps, true).db;
            var m := db.payments;
            && WalletTotal(m, wallet, None) == CreatedTotal(EventsIn(db.eventStore), wallet)
            && WalletTotal(m, wallet, None) ==
               WalletTotal(m, wallet, Some(PENDING)) + WalletTotal(m, wallet, Some(PROCESSING))
               + WalletTotal(m, wallet, Some(SUCCEEDED)) + WalletTotal(m, wallet, Some(FAILED))
               + WalletTotal(m, wallet, Some(CANCELLED)) + WalletTotal(m, wallet, Some(REFUNDED))
  {
    var db := Run(steps, true).db;
    SynchronousProjectionAgrees(steps);
    var events := EventsIn(db.eventStore);
    forall i, j | 0 <= i < j < |events| && events[i].body.Created? && events[j].body.Created?
      ensures events[i].paymentId != events[j].paymentId
    {
      if events[i].paymentId == events[j].paymentId {
        OneCreationPerPayment(steps, true, i, j);
      }
    }
    TotalIsCreatedTotal(events, wallet);
    StatusesPartition(db.payments, db.payments.Keys, wallet);
  }

  // ---------- wallet totals by status ----------

  /**
    What a creation adds to its wallet's total for a status: its amount, while its payment's latest event is of that
    status.
   */
  function LogShare(log: seq<StoreRow>, r: StoreRow, wallet: Id, status: Status): int {
    var events := EventsIn(RowsOf(log, r.event.paymentId));
    if r.event.body.Created? && r.event.walletId == wallet && events != [] && ShownStatus(LastKind(events)) == status
    then r.event.body.amount
    else 0
  }

  function LogTotal(log: seq<StoreRow>, n: nat, wallet: Id, status: Status): int
    requires n <= |log|
  {
    if n == 0 then 0 else LogTotal(log, n - 1, wallet, status) + LogShare(log, log[n - 1], wallet, status)
  }

  function CreatedIds(log: seq<StoreRow>, n: nat): set<Id>
    requires n <= |log|
  {
    set i | 0 <= i < n && log[i].event.body.Created? :: log[i].event.paymentId
  }

  lemma CreationIsFirst(steps: seq<Step>, r: StoreRow)
    requires r in Run(steps, true).db.eventStore && r.event.body.Created?
    ensures var rows := RowsOf(Run(steps, true).db.eventStore, r.event.paymentId);
            rows != [] && rows[0] == r && Legal(EventsIn(rows))
  {
    var log := Run(steps, true).db.eventStore;
    RowsKeepTheirPayment(steps, true);
    EveryRunIsSound(steps, true);
    var rows := RowsOf(log, r.event.paymentId);
    RowsOfMembers(log, r.event.paymentId, r);
    assert StreamOk(rows, r.event.paymentId);
    var i :| 0 <= i < |rows| && rows[i] == r;
    LegalIdentity(EventsIn(rows), i);
  }

  /** A creation's share of the read model is its share of the log. */
  lemma SharesAgree(steps: seq<Step>, r: StoreRow, wallet: Id, status: Status)
    requires r in Run(steps, true).db.eventStore && r.event.body.Created?
    ensures var db := Run(steps, true).db;
            && r.event.paymentId in db.payments
            && Share(db.payments[r.event.paymentId], wallet, Some(status)) == LogShare(db.eventStore, r, wallet, status)
  {
    var db := Run(steps, true).db;
    var events := EventsIn(RowsOf(db.eventStore, r.event.paymentId));
    CreationIsFirst(steps, r);
    ReadModelShowsEveryAggregate(steps, r.event.paymentId);
    LiveKeepsCore(events);
    StatusIsShown(events);
  }

  ghost predicate OneCreationEach(log: seq<StoreRow>) {
    forall i, j :: 0 <= i < j < |log| && log[i].event.body.Created? && log[j].event.body.Created? ==>
      log[i].event.paymentId != log[j].event.paymentId
  }

  ghost predicate SharesMatch(log: seq<StoreRow>, m: ReadModel, wallet: Id, status: Status) {
    forall r :: r in log && r.event.body.Created? ==>
      && r.event.paymentId in m
      && Share(m[r.event.paymentId], wallet, Some(status)) == LogShare(log, r, wallet, status)
  }

  lemma CreatedIdsSnoc(log: seq<StoreRow>, n: nat)
    requires OneCreationEach(log) && 0 < n <= |log|
    ensures var p := log[n - 1].event.paymentId;
            if log[n - 1].event.body.Created?
            then p in CreatedIds(log, n) && CreatedIds(log, n) - {p} == CreatedIds(log, n - 1)
            else CreatedIds(log, n) == CreatedIds(log, n - 1)
  {
  }

  lemma {:induction false} TotalOfFirstRows(log: seq<StoreRow>, m: ReadModel, n: nat, wallet: Id, status: Status)
    requires OneCreationEach(log) && SharesMatch(log, m, wallet, status) && n <= |log|
    ensures CreatedIds(log, n) <= m.Keys
    ensures SumOver(m, CreatedIds(log, n), wallet, Some(status)) == LogTotal(log, n, wallet, status)
  {
    if n > 0 {
      var r := log[n - 1];
      TotalOfFirstRows(log, m, n - 1, wallet, status);
      CreatedIdsSnoc(log, n);
      assert r in log;
      if r.event.body.Created? {
        SumTakesOut(m, CreatedIds(log, n), wallet, Some(status), r.event.paymentId);
      }
    }
  }

  lemma EachIsCreatedOnce(steps: seq<Step>)
    ensures OneCreationEach(Run(steps, true).db.eventStore)
  {
    var log := Run(steps, true).db.eventStore;
    forall i, j | 0 <= i < j < |log| && log[i].event.body.Created? && log[j].event.body.Created?
      ensures log[i].event.paymentId != log[j].event.paymentId
    {
      if log[i].event.paymentId == log[j].event.paymentId {
        OneCreationPerPayment(steps, true, i, j);
      }
    }
  }

  lemma EveryRowWasCreated(steps: seq<Step>)
    ensures var db := Run(steps, true).db; db.payments.Keys <= CreatedIds(db.eventStore, |db.eventStore|)
  {
    var db := Run(steps, true).db;
    forall p | p in db.payments ensures p in CreatedIds(db.eventStore, |db.eventStore|) {
      ReadModelShowsEveryAggregate(steps, p);
      EveryRunIsSound(steps, true);
      var rows := RowsOf(db.eventStore, p);
      assert StreamOk(rows, p);
      RowsOfMembers(db.eventStore, p, rows[0]);
      LegalBeginning(EventsIn(rows));
      var i :| 0 <= i < |db.eventStore| && db.eventStore[i] == rows[0];
    }
  }

  /**
    With DEBUG on a wallet's total for one status is what its payments created whose latest event is of that status.
   */
  lemma StatusTotalsAgreeWithLog(steps: seq<Step>, wallet: Id, status: Status)
    ensures var db := Run(steps, true).db;
            WalletTotal(db.payments, wallet, Some(status)) == LogTotal(db.eventStore, |db.eventStore|, wallet, status)
  {
    var db := Run(steps, true).db;
    forall r | r in db.eventStore && r.event.body.Created?
      ensures r.event.paymentId in db.payments
      ensures Share(db.payments[r.event.paymentId], wallet, Some(status)) == LogShare(db.eventStore, r, wallet, status)
    {
      SharesAgree(steps, r, wallet, status);
    }
    EachIsCreatedOnce(steps);
    TotalOfFirstRows(db.eventStore, db.payments, |db.eventStore|, wallet, status);
    EveryRowWasCreated(steps);
    assert CreatedIds(db.eventStore, |db.eventStore|) == db.payments.Keys;
  }
}
