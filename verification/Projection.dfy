/** The read-model projector, its runner, and the rebuild of the whole read model. */
module Projection {
  import opened Basics
  import opened Payments
  import opened Streams
  import opened Storage

  const VERSION: nat := 1

  datatype ProjectionError = InvariantViolation | AmountNotPositive

  function Get(m: ReadModel, p: Id): Option<PaymentRow> {
    if p in m then Some(m[p]) else None
  }

  // ---------- one event ----------

  /** A filtered UPDATE of one row's status: it must hit a row whose status is allowed. */
  function Transition(row: Option<PaymentRow>, allowed: set<Status>, to: Status): Result<PaymentRow, ProjectionError> {
    if row.Some? && row.value.status in allowed then Ok(row.value.(status := to)) else Err(InvariantViolation)
  }

  function FailedText(reason: Option<string>): string {
    TextOr(reason, "Payment failed")
  }

  /** What one event does to the row of its payment. */
  function ProjectOne(row: Option<PaymentRow>, e: Event): Result<PaymentRow, ProjectionError> {
    match e.body
    case Created(amount, currency, ptype, payMethod, reference, description) =>
      if amount <= 0 then Err(AmountNotPositive)
      else Ok(PaymentRow(e.walletId, e.userId, amount, Upper(currency), ptype, payMethod,
                         PENDING, reference, description))
    case Processed => Transition(row, {PENDING}, PROCESSING)
    case Succeeded => Transition(row, {PENDING, PROCESSING}, SUCCEEDED)
    case Failed(reason) =>
      (match Transition(row, {PENDING, PROCESSING}, FAILED)
       case Ok(r) => Ok(r.(description := Some(FailedText(reason))))
       case Err(error) => Err(error))
    case Cancelled => Transition(row, {PENDING}, CANCELLED)
    case Refunded(_, _, _) => Transition(row, {SUCCEEDED}, REFUNDED)
  }

  function Project(m: ReadModel, e: Event): Result<ReadModel, ProjectionError> {
    match ProjectOne(Get(m, e.paymentId), e)
    case Ok(row) => Ok(m[e.paymentId := row])
    case Err(error) => Err(error)
  }

  function ProjectLog(m: ReadModel, events: seq<Event>): Result<ReadModel, ProjectionError> {
    if events == [] then Ok(m)
    else
      match ProjectLog(m, events[..|events| - 1])
      case Ok(n) => Project(n, events[|events| - 1])
      case Err(error) => Err(error)
  }

  lemma ProjectLogSnoc(m: ReadModel, events: seq<Event>, e: Event)
    ensures ProjectLog(m, events + [e]) ==
            match ProjectLog(m, events) case Ok(n) => Project(n, e) case Err(error) => Err(error)
  {
    assert (events + [e])[..|events|] == events;
  }

  // ---------- one payment ----------

  function Of(events: seq<Event>, p: Id): seq<Event> {
    if events == [] then []
    else Of(events[..|events| - 1], p) + (if events[|events| - 1].paymentId == p then [events[|events| - 1]] else [])
  }

  /** The fold of one payment's events alone. */
  function RowAfter(row: Option<PaymentRow>, events: seq<Event>): Result<Option<PaymentRow>, ProjectionError> {
    if events == [] then Ok(row)
    else
      match RowAfter(row, events[..|events| - 1])
      case Err(error) => Err(error)
      case Ok(r) =>
        match ProjectOne(r, events[|events| - 1])
        case Ok(s) => Ok(Some(s))
        case Err(error) => Err(error)
  }

  function OwnFold(m: ReadModel, events: seq<Event>, p: Id): Result<Option<PaymentRow>, ProjectionError> {
    RowAfter(Get(m, p), Of(events, p))
  }

  lemma OwnFoldSnoc(m: ReadModel, events: seq<Event>, e: Event, p: Id)
    ensures OwnFold(m, events + [e], p) ==
            if p != e.paymentId then OwnFold(m, events, p)
            else match OwnFold(m, events, p)
                 case Err(error) => Err(error)
                 case Ok(r) =>
                   match ProjectOne(r, e)
                   case Ok(s) => Ok(Some(s))
                   case Err(error) => Err(error)
  {
    assert (events + [e])[..|events|] == events;
    if p == e.paymentId {
      assert (Of(events, p) + [e])[..|Of(events, p)|] == Of(events, p);
    } else {
      assert Of(events + [e], p) == Of(events, p);
    }
  }

  /** Projecting a log is, payment by payment, the fold of that payment's own events; it fails iff one of those does. */
  lemma {:induction false} ProjectionIsPerPayment(m: ReadModel, events: seq<Event>)
    ensures ProjectLog(m, events).Ok? <==> forall p: Id :: OwnFold(m, events, p).Ok?
    ensures ProjectLog(m, events).Ok? ==>
              forall p: Id :: OwnFold(m, events, p) == Ok(Get(ProjectLog(m, events).value, p))
  {
    if events != [] {
      var init, e := events[..|events| - 1], events[|events| - 1];
      assert events == init + [e];
      ProjectionIsPerPayment(m, init);
      forall p: Id ensures OwnFold(m, events, p).Ok? ==> OwnFold(m, init, p).Ok? {
        OwnFoldSnoc(m, init, e, p);
      }
      OwnFoldSnoc(m, init, e, e.paymentId);
      if ProjectLog(m, init).Ok? {
        forall p: Id | p != e.paymentId ensures OwnFold(m, events, p) == OwnFold(m, init, p) {
          OwnFoldSnoc(m, init, e, p);
        }
      }
    }
  }

  lemma SameRowsSameModel(m: ReadModel, n: ReadModel)
    requires forall p: Id :: Get(m, p) == Get(n, p)
    ensures m == n
  {
    forall p: Id ensures p in m <==> p in n {
      assert Get(m, p) == Get(n, p);
    }
    forall p | p in m ensures m[p] == n[p] {
      assert Get(m, p) == Get(n, p);
    }
  }

  /**
    Logs that agree on every payment's own events give the same read model, and one fails exactly when the other does.
   */
  lemma OrderAcrossPaymentsIsIrrelevant(m: ReadModel, a: seq<Event>, b: seq<Event>)
    requires forall p: Id :: Of(a, p) == Of(b, p)
    ensures ProjectLog(m, a).Ok? <==> ProjectLog(m, b).Ok?
    ensures ProjectLog(m, a).Ok? ==> ProjectLog(m, a) == ProjectLog(m, b)
  {
    ProjectionIsPerPayment(m, a);
    ProjectionIsPerPayment(m, b);
    assert forall p: Id :: OwnFold(m, a, p) == OwnFold(m, b, p);
    if ProjectLog(m, a).Ok? {
      var x, y := ProjectLog(m, a).value, ProjectLog(m, b).value;
      forall p: Id ensures Get(x, p) == Get(y, p) {
        assert OwnFold(m, a, p) == Ok(Get(x, p)) && OwnFold(m, b, p) == Ok(Get(y, p));
      }
      SameRowsSameModel(x, y);
    }
  }

  // ---------- replay over an old read model ----------

  /** Every payment's first logged event is its creation. */
  ghost predicate Complete(events: seq<Event>) {
    forall p: Id :: Of(events, p) != [] ==> Of(events, p)[0].body.Created?
  }

  ghost predicate Logged(events: seq<Event>, p: Id) {
    Of(events, p) != []
  }

  lemma {:induction false} CreationOverwrites(stale: Option<PaymentRow>, events: seq<Event>)
    requires events != [] && events[0].body.Created?
    ensures RowAfter(stale, events) == RowAfter(None, events)
  {
    if |events| > 1 {
      CreationOverwrites(stale, events[..|events| - 1]);
    } else {
      assert events[..0] == [];
    }
  }

  /**
    Replaying a complete log over any old read model gives what replaying it over an empty one gives, exactly when the
    old model holds no row of a payment the log does not know; both replays fail together.
   */
  lemma ReplayOverwrites(m: ReadModel, events: seq<Event>)
    requires Complete(events)
    ensures ProjectLog(m, events).Ok? <==> ProjectLog(map[], events).Ok?
    ensures ProjectLog(m, events).Ok? ==>
              (ProjectLog(m, events) == ProjectLog(map[], events) <==> forall p :: p in m ==> Logged(events, p))
  {
    ProjectionIsPerPayment(m, events);
    ProjectionIsPerPayment(map[], events);
    forall p: Id ensures OwnFold(m, events, p).Ok? <==> OwnFold(map[], events, p).Ok?
      ensures Logged(events, p) || p !in m ==> OwnFold(m, events, p) == OwnFold(map[], events, p)
    {
      if Logged(events, p) {
        CreationOverwrites(Get(m, p), Of(events, p));
      }
    }
    if ProjectLog(m, events).Ok? {
      var x, y := ProjectLog(m, events).value, ProjectLog(map[], events).value;
      if forall p :: p in m ==> Logged(events, p) {
        forall p: Id ensures Get(x, p) == Get(y, p) {
          assert OwnFold(m, events, p) == Ok(Get(x, p)) && OwnFold(map[], events, p) == Ok(Get(y, p));
        }
        SameRowsSameModel(x, y);
      } else {
        var p :| p in m && !Logged(events, p);
        assert OwnFold(m, events, p) == Ok(Get(x, p)) && OwnFold(map[], events, p) == Ok(Get(y, p));
        assert p in x && p !in y;
      }
    }
  }

  // ---------- what a row says about its events ----------

  /** A creation, and no second one behind it. */
  predicate OneCreation(events: seq<Event>) {
    && events != [] && events[0].body.Created?
    && forall i :: 1 <= i < |events| ==> !events[i].body.Created?
  }

  function ShownStatus(latest: PaymentEventType): Status {
    match latest
    case PAYMENT_CREATED => PENDING
    case PAYMENT_PROCESSED => PROCESSING
    case PAYMENT_SUCCEEDED => SUCCEEDED
    case PAYMENT_FAILED => FAILED
    case PAYMENT_CANCELLED => CANCELLED
    case PAYMENT_REFUNDED => REFUNDED
  }

  /** After a failure the reason, or a stock text when there is none; otherwise what the creation said. */
  function ShownDescription(events: seq<Event>): Option<string>
    requires OneCreation(events)
  {
    match events[|events| - 1].body
    case Failed(reason) =>
      if reason.Some? && reason.value != "" then reason else Some("Payment failed")
    case _ => events[0].body.description
  }

  /** The projector takes an event behind these ones and no others. */
  predicate MayFollow(latest: PaymentEventType, next: PaymentEventType) {
    match next
    case PAYMENT_CREATED => true
    case PAYMENT_PROCESSED => latest == PAYMENT_CREATED
    case PAYMENT_CANCELLED => latest == PAYMENT_CREATED
    case PAYMENT_SUCCEEDED => latest == PAYMENT_CREATED || latest == PAYMENT_PROCESSED
    case PAYMENT_FAILED => latest == PAYMENT_CREATED || latest == PAYMENT_PROCESSED
    case PAYMENT_REFUNDED => latest == PAYMENT_SUCCEEDED
  }

  /**
    Any events the projector accepts, written by commands or not: the row is the creation, as its last event leaves it.
   */
  lemma {:induction false} AcceptedRowIs(events: seq<Event>)
    requires OneCreation(events) && RowAfter(None, events).Ok?
    ensures var e, b := events[0], events[0].body;
            RowAfter(None, events).value
            == Some(PaymentRow(e.walletId, e.userId, b.amount, Upper(b.currency), b.ptype, b.payMethod,
                               ShownStatus(LastKind(events)), b.reference, ShownDescription(events)))
  {
    if |events| == 1 {
      assert events[..0] == [];
    } else {
      AcceptedRowIs(events[..|events| - 1]);
    }
  }

  /**
    The projector's answer to one more event: by the kind of the latest one it accepted, with the invariant violation
    for all others; before the creation it accepts nothing but one; a creation only has to be of a positive amount.
   */
  lemma ProjectorAnswers(events: seq<Event>, e: Event)
    requires events != [] ==> OneCreation(events)
    requires RowAfter(None, events).Ok?
    ensures var r := ProjectOne(RowAfter(None, events).value, e);
            if e.body.Created? then r.Err? <==> e.body.amount <= 0
            else r.Err? <==> events == [] || !MayFollow(LastKind(events), KindOf(e.body))
    ensures var r := ProjectOne(RowAfter(None, events).value, e);
            r.Err? ==> r.error == if e.body.Created? then AmountNotPositive else InvariantViolation
  {
    if events != [] {
      AcceptedRowIs(events);
    }
  }

  lemma LegalHasOneCreation(events: seq<Event>)
    requires Legal(events)
    ensures OneCreation(events)
  {
    forall i | 0 <= i < |events| ensures events[i].body.Created? <==> i == 0 {
      LegalIdentity(events, i);
    }
  }

  // ---------- projector against aggregate ----------

  ghost predicate EventAfterFailure(events: seq<Event>) {
    exists i :: 0 <= i < |events| - 1 && events[i].body.Failed?
  }

  /** The row shows the aggregate: every column but, after a failure, the description (ShownDescription). */
  predicate Shows(row: PaymentRow, p: Payment) {
    && row.walletId == p.walletId && row.userId == p.userId
    && row.amount == p.amount && row.currency == p.currency
    && row.ptype == TypeText(p.ptype) && row.payMethod == MethodText(p.payMethod)
    && row.status == p.status && row.reference == p.reference
    && (p.status != FAILED ==> row.description == p.description)
  }

  lemma StatusIsOfEvent(p: Payment, e: Event)
    requires Follows(p, e)
    ensures When(p, e).status == FAILED <==> e.body.Failed?
  {
  }

  lemma StatusIsOfLastEvent(events: seq<Event>)
    requires Legal(events)
    ensures Live(events).status == FAILED <==> events[|events| - 1].body.Failed?
  {
    if |events| == 1 {
      LegalBeginning(events);
      assert events[..1] == events;
    } else {
      var p := LastStep(events);
      StatusIsOfEvent(p, events[|events| - 1]);
    }
  }

  /** The aggregate's status is that of its last event, as the read model words it. */
  lemma StatusIsShown(events: seq<Event>)
    requires Legal(events)
    ensures Live(events).status == ShownStatus(LastKind(events))
  {
    if |events| == 1 {
      LegalBeginning(events);
      assert events[..1] == events;
    } else {
      var p := LastStep(events);
    }
  }

  lemma FailureBeforeLast(events: seq<Event>)
    requires |events| > 1
    ensures var init := events[..|events| - 1];
            EventAfterFailure(events) <==> EventAfterFailure(init) || init[|init| - 1].body.Failed?
  {
    var init := events[..|events| - 1];
    if EventAfterFailure(events) {
      var i :| 0 <= i < |events| - 1 && events[i].body.Failed?;
      assert init[i].body.Failed?;
    }
    if EventAfterFailure(init) {
      var i :| 0 <= i < |init| - 1 && init[i].body.Failed?;
      assert events[i].body.Failed?;
    }
  }

  lemma ProjectAgreesWithHandler(row: PaymentRow, p: Payment, e: Event)
    requires Shows(row, p) && Follows(p, e)
    ensures ProjectOne(Some(row), e).Ok? <==> p.status != FAILED
    ensures ProjectOne(Some(row), e).Ok? ==> Shows(ProjectOne(Some(row), e).value, When(p, e))
  {
  }

  /**
    On a stream that commands wrote, the projector raises exactly when some event follows a Failed event; otherwise the
    row it leaves shows the aggregate's state, and after a failure the failure's reason as its description.
   */
  lemma {:induction false} ProjectorAgainstAggregate(events: seq<Event>)
    requires Legal(events)
    ensures RowAfter(None, events).Ok? <==> !EventAfterFailure(events)
    ensures RowAfter(None, events).Ok? ==>
              RowAfter(None, events).value.Some? && Shows(RowAfter(None, events).value.value, Live(events))
    ensures OneCreation(events)
    ensures RowAfter(None, events).Ok? ==>
              RowAfter(None, events).value.value.description == ShownDescription(events)
  {
    LegalHasOneCreation(events);
    if RowAfter(None, events).Ok? {
      AcceptedRowIs(events);
    }
    if |events| == 1 {
      assert events[..0] == [];
      ParsedText(events[0].body.ptype, events[0].body.payMethod);
    } else {
      var init, e := events[..|events| - 1], events[|events| - 1];
      ProjectorAgainstAggregate(init);
      FailureBeforeLast(events);
      StatusIsOfLastEvent(init);
      if RowAfter(None, init).Ok? {
        ProjectAgreesWithHandler(RowAfter(None, init).value.value, Live(init), e);
      }
    }
  }

  // ---------- the projector object ----------

  class PaymentProjector {
    const db: Database

    constructor (db: Database)
      ensures this.db == db
    {
      this.db := db;
    }

    /** objects.filter(id, status__in).update(status[, description]): the number of rows hit. */
    method UpdateWhere(p: Id, allowed: set<Status>, to: Status, description: Option<string>) returns (updated: nat)
      modifies db`payments
      ensures updated == if p in old(db.payments) && old(db.payments)[p].status in allowed then 1 else 0
      ensures updated == 0 ==> db.payments == old(db.payments)
      ensures updated == 1 ==>
                var row := old(db.payments)[p].(status := to);
                db.payments == old(db.payments)[p := if description.Some? then row.(description := description) else row]
    {
      if p in db.payments && db.payments[p].status in allowed {
        var row := db.payments[p].(status := to);
        if description.Some? {
          row := row.(description := description);
        }
        db.payments := db.payments[p := row];
        return 1;
      }
      return 0;
    }

    method OnCreated(e: Event) returns (ok: bool)
      requires e.body.Created?
      modifies db`payments
      ensures ok <==> Project(old(db.payments), e).Ok?
      ensures db.payments == if ok then Project(old(db.payments), e).value else old(db.payments)
    {
      if e.body.amount <= 0 {
        return false;
      }
      db.payments := db.payments[e.paymentId :=
        PaymentRow(e.walletId, e.userId, e.body.amount, Upper(e.body.currency), e.body.ptype, e.body.payMethod,
                   PENDING, e.body.reference, e.body.description)];
      return true;
    }

    /** project(): dispatch to the handler; a handler that updates no row raises. */
    method ProjectEvent(e: Event) returns (ok: bool)
      modifies db`payments
      ensures ok <==> Project(old(db.payments), e).Ok?
      ensures db.payments == if ok then Project(old(db.payments), e).value else old(db.payments)
    {
      var updated := 0;
      match e.body {
        case Created(_, _, _, _, _, _) => ok := OnCreated(e); return;
        case Processed => updated := UpdateWhere(e.paymentId, {PENDING}, PROCESSING, None);
        case Succeeded => updated := UpdateWhere(e.paymentId, {PENDING, PROCESSING}, SUCCEEDED, None);
        case Failed(reason) =>
          updated := UpdateWhere(e.paymentId, {PENDING, PROCESSING}, FAILED, Some(TextOr(reason, "Payment failed")));
        case Cancelled => updated := UpdateWhere(e.paymentId, {PENDING}, CANCELLED, None);
        case Refunded(_, _, _) => updated := UpdateWhere(e.paymentId, {SUCCEEDED}, REFUNDED, None);
      }
      ok := updated != 0;
    }
  }

  // ---------- the runner ----------

  /** apply_from_event on the tables: skipped unless the projection state has the current version. */
  function ApplyFromEvent(t: Tables, e: Event): Result<Tables, ProjectionError> {
    var state := if t.projection.Some? then t.projection.value else ProjectionState(VERSION, None);
    if state.version != VERSION then Ok(t.(projection := Some(state)))
    else
      match Project(t.payments, e)
      case Ok(m) => Ok(t.(payments := m, projection := Some(state.(lastEventId := None))))
      case Err(error) => Err(error)
  }

  /** apply on the tables: the same, for a stored row, whose id is then remembered. */
  function ApplyStored(t: Tables, r: StoreRow): Result<Tables, ProjectionError> {
    var state := if t.projection.Some? then t.projection.value else ProjectionState(VERSION, None);
    if state.version != VERSION then Ok(t.(projection := Some(state)))
    else
      match Project(t.payments, r.event)
      case Ok(m) => Ok(t.(payments := m, projection := Some(state.(lastEventId := Some(r.id)))))
      case Err(error) => Err(error)
  }

  class PaymentProjectionRunner {
    const db: Database
    const projector: PaymentProjector

    constructor (db: Database)
      ensures this.db == db && projector.db == db
    {
      this.db := db;
      projector := new PaymentProjector(db);
    }

    /** Both entry points: project under the state row, all or nothing. */
    method Run(e: Event, seen: Option<Id>) returns (ok: bool)
      requires projector.db == db
      modifies db
      ensures db.eventStore == old(db.eventStore) && db.outbox == old(db.outbox)
      ensures !ok ==> db.View() == old(db.View())
      ensures ok <==> ApplyFromEvent(old(db.View()), e).Ok?
      ensures ok ==>
                var t := ApplyFromEvent(old(db.View()), e).value;
                && db.payments == t.payments
                && db.projection == (if t.projection.value.version != VERSION then t.projection
                                     else Some(t.projection.value.(lastEventId := seen)))
    {
      var before := db.View();
      if db.projection.None? {
        db.projection := Some(ProjectionState(VERSION, None));
      }
      if db.projection.value.version != VERSION {
        return true;
      }
      ok := projector.ProjectEvent(e);
      if !ok {
        db.Restore(before);
        return;
      }
      db.projection := Some(db.projection.value.(lastEventId := seen));
    }

    method ApplyEvent(e: Event) returns (ok: bool)
      requires projector.db == db
      modifies db
      ensures ok <==> ApplyFromEvent(old(db.View()), e).Ok?
      ensures db.View() == if ok then ApplyFromEvent(old(db.View()), e).value else old(db.View())
    {
      ok := Run(e, None);
    }

    method Apply(r: StoreRow) returns (ok: bool)
      requires projector.db == db
      modifies db
      ensures ok <==> ApplyStored(old(db.View()), r).Ok?
      ensures db.View() == if ok then ApplyStored(old(db.View()), r).value else old(db.View())
    {
      ok := Run(r.event, Some(r.id));
    }
  }

  // ---------- the rebuild command ----------

  /** Delete every row of the read model and replay the stored events in the given order. */
  function Rebuilt(t: Tables, order: seq<StoreRow>): Result<Tables, ProjectionError> {
    match ProjectLog(map[], EventsIn(order))
    case Err(error) => Err(error)
    case Ok(m) =>
      Ok(t.(payments := m,
            projection := Some(ProjectionState(VERSION, if order == [] then None else Some(order[|order| - 1].id)))))
  }

  function CreatedAt(r: StoreRow): int {
    r.createdAt
  }

  /** The rows as the replay query may return them: all of them, by creation time, ties in any order. */
  ghost predicate ByCreationTime(log: seq<StoreRow>, order: seq<StoreRow>) {
    multiset(order) == multiset(log) && Ascending(order, CreatedAt)
  }

  class RebuildCommand {
    const db: Database

    constructor (db: Database)
      ensures this.db == db
    {
      this.db := db;
    }

    /** handle(): one transaction, so a failing event leaves every table as it was. */
    method Handle(order: seq<StoreRow>) returns (ok: bool, count: nat)
      modifies db
      ensures ok <==> Rebuilt(old(db.View()), order).Ok?
      ensures db.View() == if ok then Rebuilt(old(db.View()), order).value else old(db.View())
      ensures ok ==> count == |order|
    {
      var before := db.View();
      db.projection := Some(ProjectionState(0, None));
      db.payments := map[];
      var runner := new PaymentProjectionRunner(db);
      var lastEventId: Option<Id> := None;
      count := 0;
      ghost var events := EventsIn(order);
      while count < |order|
        invariant count <= |order|
        invariant ProjectLog(map[], events[..count]) == Ok(db.payments)
        invariant lastEventId == if count == 0 then None else Some(order[count - 1].id)
        invariant db.eventStore == before.eventStore && db.outbox == before.outbox
        invariant db.projection.Some?
        invariant runner.projector.db == db
      {
        assert events[..count + 1] == events[..count] + [events[count]];
        ProjectLogSnoc(map[], events[..count], events[count]);
        ok := runner.projector.ProjectEvent(order[count].event);
        if !ok {
          ErrorsPropagate(map[], events, count + 1);
          db.Restore(before);
          return;
        }
        lastEventId := Some(order[count].id);
        count := count + 1;
      }
      assert events[..count] == events;
      db.projection := Some(ProjectionState(VERSION, lastEventId));
      ok := true;
    }
  }

  function ApplyEach(t: Tables, order: seq<StoreRow>): Result<Tables, ProjectionError> {
    if order == [] then Ok(t)
    else
      match ApplyEach(t, order[..|order| - 1])
      case Ok(u) => ApplyStored(u, order[|order| - 1])
      case Err(error) => Err(error)
  }

  lemma EventsInInit(order: seq<StoreRow>)
    requires order != []
    ensures EventsIn(order)[..|order| - 1] == EventsIn(order[..|order| - 1])
  {
  }

  /** A rebuild is the runner's apply, stored row by stored row, from an empty read model. */
  lemma {:induction false} RebuildAppliesEach(t: Tables, order: seq<StoreRow>)
    requires t.projection.Some? ==> t.projection.value.version == 1
    ensures var each := ApplyEach(t.(payments := map[]), order);
            && (Rebuilt(t, order).Ok? <==> each.Ok?)
            && (order != [] ==> Rebuilt(t, order) == each)
            && (order == [] ==> each == Ok(t.(payments := map[])))
  {
    if order != [] {
      RebuildAppliesEach(t, order[..|order| - 1]);
      EventsInInit(order);
    }
  }

  /**
    Where the runner stands: behind a stored row it has applied, nowhere behind an event; another version is left alone.
   */
  lemma RunnerKeepsItsPlace(t: Tables, r: StoreRow)
    requires ApplyStored(t, r).Ok? && ApplyFromEvent(t, r.event).Ok?
    ensures var stored, direct := ApplyStored(t, r).value, ApplyFromEvent(t, r.event).value;
            if t.projection.Some? && t.projection.value.version != 1 then stored == t && direct == t
            else
              && stored.projection == Some(ProjectionState(1, Some(r.id)))
              && direct.projection == Some(ProjectionState(1, None))
              && stored.payments == direct.payments == Project(t.payments, r.event).value
              && stored.eventStore == direct.eventStore == t.eventStore && stored.outbox == direct.outbox == t.outbox
  {
  }

  lemma {:induction false} ErrorsPropagate(m: ReadModel, events: seq<Event>, n: nat)
    requires n <= |events| && ProjectLog(m, events[..n]).Err?
    ensures ProjectLog(m, events).Err?
  {
    if n < |events| {
      assert events[..|events| - 1][..n] == events[..n];
      ErrorsPropagate(m, events[..|events| - 1], n);
    } else {
      assert events[..n] == events;
    }
  }

  ghost predicate RowsCarryTheirPayment(log: seq<StoreRow>) {
    forall r :: r in log ==> r.event.paymentId == r.aggregateId
  }

  lemma {:induction false} OwnEventsAreOwnRows(log: seq<StoreRow>, p: Id)
    requires RowsCarryTheirPayment(log)
    ensures Of(EventsIn(log), p) == EventsIn(RowsOf(log, p))
  {
    if log != [] {
      var init, r := log[..|log| - 1], log[|log| - 1];
      assert log == init + [r];
      assert r in log && forall x :: x in init ==> x in log;
      OwnEventsAreOwnRows(init, p);
      EventsInSnoc(init, r);
      assert (EventsIn(init) + [r.event])[..|init|] == EventsIn(init);
      EventsInSnoc(RowsOf(init, p), r);
    }
  }

  /**
    The rebuild's created_at order is right whenever it keeps each payment's own order: if every stream's creation
    times increase with its versions, every answer of the query rebuilds what the log projects to.
   */
  lemma RebuildOrderIsRight(log: seq<StoreRow>, order: seq<StoreRow>)
    requires RowsCarryTheirPayment(log) && ByCreationTime(log, order)
    requires forall p: Id :: StrictlyAscending(RowsOf(log, p), CreatedAt)
    ensures ProjectLog(map[], EventsIn(order)).Ok? <==> ProjectLog(map[], EventsIn(log)).Ok?
    ensures ProjectLog(map[], EventsIn(log)).Ok? ==>
              ProjectLog(map[], EventsIn(order)) == ProjectLog(map[], EventsIn(log))
  {
    assert RowsCarryTheirPayment(order) by {
      forall r | r in order ensures r.event.paymentId == r.aggregateId {
        SameRows(log, order, r);
      }
    }
    forall p: Id ensures Of(EventsIn(order), p) == Of(EventsIn(log), p) {
      RowsOfPermutation(log, order, p);
      OwnRowsStayOrdered(order, p);
      StrictOrderIsUnique(RowsOf(log, p), RowsOf(order, p), CreatedAt);
      OwnEventsAreOwnRows(log, p);
      OwnEventsAreOwnRows(order, p);
    }
    OrderAcrossPaymentsIsIrrelevant(map[], EventsIn(order), EventsIn(log));
  }

  lemma {:induction false} OwnRowsStayOrdered(order: seq<StoreRow>, p: Id)
    requires Ascending(order, CreatedAt)
    ensures Ascending(RowsOf(order, p), CreatedAt)
  {
    if order != [] {
      var init, r := order[..|order| - 1], order[|order| - 1];
      OwnRowsStayOrdered(init, p);
      forall x | x in RowsOf(init, p) ensures CreatedAt(x) <= CreatedAt(r) {
        RowsOfMembers(init, p, x);
      }
      AscendingSnoc(RowsOf(init, p), r, CreatedAt);
    }
  }
}
