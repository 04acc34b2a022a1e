/** The payment command service: create, or load, command and save. */
module CommandService {
  import opened Basics
  import opened Payments
  import opened Streams
  import opened Storage
  import Outbox
  import Projection
  import opened EventStore
  import W = WriteSide
  import Refunds
  import SyncProjection

  datatype ServiceError =
    | CurrencyRequired
    | MethodRequired
    | UnknownMethod
    | Refused(error: PaymentError)
    | NotPersisted(failure: AppendError)

  /** The request's checks before any factory: a currency, and, except for a refund, the text of a known method. */
  function Prepared(c: Creation, means: string): Result<Creation, ServiceError> {
    if Strip(c.currency) == "" then Err(CurrencyRequired)
    else if c.CreateRefund? then Ok(c)
    else if Strip(means) == "" then Err(MethodRequired)
    else
      match ParseMethod(means)
      case Some(m) => Ok(c.(payMethod := m))
      case None => Err(UnknownMethod)
  }

  function Persist(t: Tables, debug: bool, a: Aggregate, stamp: Stamp): Result<Tables, ServiceError>
    requires |a.uncommitted| == 1
  {
    match Commit(t, debug, a, [stamp])
    case Ok(u) => Ok(u)
    case Err(failure) => Err(NotPersisted(failure))
  }

  /** create_deposit, create_withdrawal, create_payment_for_booking and create_refund. */
  function CreatePrepared(t: Tables, debug: bool, c: Creation, paymentId: Id, eventId: Id, now: Time, stamp: Stamp)
    : Result<Tables, ServiceError>
  {
    if W.RefundCheck(t.eventStore, c, now).Some? then Err(Refused(W.RefundCheck(t.eventStore, c, now).value))
    else
      match Open(c, paymentId, eventId, now)
      case Err(error) => Err(Refused(error))
      case Ok(view) => Persist(t, debug, view, stamp)
  }

  function CreatePayment(t: Tables, debug: bool, c: Creation, means: string, paymentId: Id, eventId: Id, now: Time,
                         stamp: Stamp): Result<Tables, ServiceError>
  {
    match Prepared(c, means)
    case Err(error) => Err(error)
    case Ok(prepared) => CreatePrepared(t, debug, prepared, paymentId, eventId, now, stamp)
  }

  /** process_payment and its siblings; whatever goes wrong in loading is reported as a missing payment. */
  function ChangePayment(t: Tables, debug: bool, p: Id, c: Command, eventId: Id, now: Time, stamp: Stamp)
    : Result<Tables, ServiceError>
  {
    match LoadFrom(t.eventStore, p, now)
    case Err(_) => Err(Refused(PaymentNotFound))
    case Ok(view) =>
      match Do(view, c, eventId, now)
      case Err(error) => Err(Refused(error))
      case Ok(changed) => Persist(t, debug, changed, stamp)
  }

  class PaymentCommandService {
    const repo: PaymentRepository

    constructor (repo: PaymentRepository)
      ensures this.repo == repo
    {
      this.repo := repo;
    }

    /** The refund's check against its original; None for the other creations. */
    method CheckRefund(c: Creation, now: Time) returns (refusal: Option<PaymentError>)
      ensures refusal == W.RefundCheck(repo.store.db.eventStore, c, now)
    {
      if !c.CreateRefund? {
        return None;
      }
      var original := repo.Load(c.originalId, now);
      if original.Err? {
        return Some(PaymentNotFound);
      }
      refusal := if c.amount > original.value.amount then Some(RefundExceedsOriginal) else None;
    }

    method Save(aggregate: PaymentAggregate, stamp: Stamp) returns (failure: Option<ServiceError>)
      requires repo.store.outbox.db == repo.store.db && |aggregate.uncommitted| == 1
      modifies repo.store.db, aggregate
      ensures match Persist(old(repo.store.db.View()), repo.store.debug, old(aggregate.View()), stamp)
              case Ok(t) => failure.None? && repo.store.db.View() == t
              case Err(error) => failure == Some(error) && repo.store.db.View() == old(repo.store.db.View())
    {
      var failed := repo.Save(aggregate, [stamp]);
      failure := if failed.Some? then Some(NotPersisted(failed.value)) else None;
    }

    method Create(c: Creation, means: string, paymentId: Id, eventId: Id, now: Time, stamp: Stamp)
      returns (failure: Option<ServiceError>)
      requires repo.store.outbox.db == repo.store.db
      modifies repo.store.db
      ensures match CreatePayment(old(repo.store.db.View()), repo.store.debug, c, means, paymentId, eventId, now, stamp)
              case Ok(t) => failure.None? && repo.store.db.View() == t
              case Err(error) => failure == Some(error) && repo.store.db.View() == old(repo.store.db.View())
    {
      if Strip(c.currency) == "" {
        return Some(CurrencyRequired);
      }
      var creation := c;
      if !c.CreateRefund? {
        if Strip(means) == "" {
          return Some(MethodRequired);
        }
        var m := ParseMethod(means);
        if m.None? {
          return Some(UnknownMethod);
        }
        creation := c.(payMethod := m.value);
      }
      var refusal := CheckRefund(creation, now);
      if refusal.Some? {
        return Some(Refused(refusal.value));
      }
      var aggregate := PaymentAggregate.Create(creation, paymentId, eventId, now);
      if aggregate.Err? {
        return Some(Refused(aggregate.error));
      }
      assert aggregate.value.View() == Open(creation, paymentId, eventId, now).value;
      failure := Save(aggregate.value, stamp);
    }

    method Change(p: Id, c: Command, eventId: Id, now: Time, stamp: Stamp) returns (failure: Option<ServiceError>)
      requires repo.store.outbox.db == repo.store.db
      modifies repo.store.db
      ensures match ChangePayment(old(repo.store.db.View()), repo.store.debug, p, c, eventId, now, stamp)
              case Ok(t) => failure.None? && repo.store.db.View() == t
              case Err(error) => failure == Some(error) && repo.store.db.View() == old(repo.store.db.View())
    {
      var loaded := repo.Load(p, now);
      if loaded.Err? {
        return Some(Refused(PaymentNotFound));
      }
      var aggregate := loaded.value;
      ghost var before := aggregate.View();
      var refusal;
      match c {
        case Process => refusal := aggregate.Process(eventId, now);
        case Succeed => refusal := aggregate.Succeed(eventId, now);
        case Fail(reason) => refusal := aggregate.Fail(reason, eventId, now);
        case Cancel => refusal := aggregate.Cancel(eventId, now);
        case MarkRefunded(refundId) => refusal := aggregate.MarkAsRefunded(refundId, eventId, now);
      }
      assert PaymentAggregate.Answers(before, aggregate.View(), c, eventId, now, refusal);
      if refusal.Some? {
        return Some(Refused(refusal.value));
      }
      failure := Save(aggregate, stamp);
    }
  }

  // ---------- the service against the write side ----------

  /** The stamp's primary keys are unused. */
  ghost predicate Fresh(t: Tables, stamp: Stamp) {
    && (forall x :: x in t.eventStore ==> x.id != stamp.rowId)
    && (forall x :: x in t.outbox ==> x.id != stamp.outboxId)
  }

  function StoredAs(a: Aggregate, stamp: Stamp): StoreRow
    requires |a.uncommitted| == 1
  {
    StoreRow(stamp.rowId, a.core.paymentId, a.version, a.uncommitted[0], stamp.at)
  }

  lemma PersistedLog(t: Tables, debug: bool, a: Aggregate, stamp: Stamp)
    requires W.StreamsOk(t.eventStore) && |a.uncommitted| == 1
    requires W.Builds(RowsOf(t.eventStore, a.core.paymentId), a) && Persist(t, debug, a, stamp).Ok?
    ensures Persist(t, debug, a, stamp).value.eventStore == t.eventStore + [StoredAs(a, stamp)]
    ensures a.version == |RowsOf(t.eventStore, a.core.paymentId)| + 1
    ensures W.StreamsOk(Persist(t, debug, a, stamp).value.eventStore)
  {
    W.CommitIsAtTheEnd(W.System(t, map[]), a, [stamp], debug);
    W.CommitKeepsStreams(t.eventStore, a, [stamp]);
    assert NewRows(a.core.paymentId, a.version - 1, a.uncommitted, [stamp]) == [StoredAs(a, stamp)];
  }

  /** A save of one event that commits adds one row, at the end of its own stream, and leaves a sound log. */
  lemma PersistAddsRow(t: Tables, debug: bool, a: Aggregate, stamp: Stamp, q: Id)
    requires W.StreamsOk(t.eventStore) && |a.uncommitted| == 1
    requires W.Builds(RowsOf(t.eventStore, a.core.paymentId), a) && Persist(t, debug, a, stamp).Ok?
    ensures var u, p := Persist(t, debug, a, stamp).value, a.core.paymentId;
            && W.StreamsOk(u.eventStore) && a.version == |RowsOf(t.eventStore, p)| + 1
            && RowsOf(u.eventStore, p) == RowsOf(t.eventStore, p) + [StoredAs(a, stamp)]
            && (q != p ==> RowsOf(u.eventStore, q) == RowsOf(t.eventStore, q))
  {
    PersistedLog(t, debug, a, stamp);
    RowsOfSnoc(t.eventStore, StoredAs(a, stamp), a.core.paymentId);
    RowsOfSnoc(t.eventStore, StoredAs(a, stamp), q);
  }

  /** With DEBUG on the projector sees the event first, on the read model as it is. */
  predicate Projects(t: Tables, debug: bool, e: Event) {
    debug ==> Projection.ApplyFromEvent(t, e).Ok?
  }

  predicate Projectable(e: Event) {
    e.body.Created? && e.body.amount > 0
  }

  /** Nothing but a rival's version, a used key or a refusing projector stops a save. */
  lemma FreshSaveCommitsIff(t: Tables, debug: bool, a: Aggregate, stamp: Stamp)
    requires Fresh(t, stamp) && |a.uncommitted| == 1 && a.version == |RowsOf(t.eventStore, a.core.paymentId)| + 1
    requires W.StreamOk(RowsOf(t.eventStore, a.core.paymentId), a.core.paymentId)
    ensures Persist(t, debug, a, stamp).Ok? <==> Projects(t, debug, a.uncommitted[0])
    ensures Persist(t, debug, a, stamp).Err? ==>
              Persist(t, debug, a, stamp)
              == Err(NotPersisted(ProjectionFailed(Projection.ApplyFromEvent(t, a.uncommitted[0]).error)))
  {
    var p, e := a.core.paymentId, a.uncommitted[0];
    forall x | x in t.eventStore && x.aggregateId == p ensures x.version != a.version {
      RowsOfMembers(t.eventStore, p, x);
    }
    assert !Clashes(t.eventStore, StoredAs(a, stamp));
    Outbox.NextVersionIsFree(t.outbox, p, stamp.outboxId, e, stamp.at);
    AppendAnswers(t, debug, p, a.version, e, stamp);
    assert AppendOne(t, debug, p, a.version, e, stamp).Ok? <==> Projects(t, debug, e);
    AppendPeels(t, debug, p, a.version - 1, a.uncommitted, [stamp], 0);
    assert a.uncommitted[0..] == a.uncommitted && [stamp][0..] == [stamp];
  }

  lemma LoadedChange(t: Tables, p: Id, c: Command, eventId: Id, now: Time)
    requires W.StreamOk(RowsOf(t.eventStore, p), p)
    ensures LoadFrom(t.eventStore, p, now).Ok? <==> RowsOf(t.eventStore, p) != []
    ensures LoadFrom(t.eventStore, p, now).Ok? ==>
              var rows, view := RowsOf(t.eventStore, p), LoadFrom(t.eventStore, p, now).value;
              var r := Do(view, c, eventId, now);
              && Legal(EventsIn(rows)) && (r.Ok? <==> Guard(Live(EventsIn(rows)).status, c).None?)
              && (r.Ok? ==>
                    && r.value.core.paymentId == p && r.value.version == |rows| + 1
                    && r.value.uncommitted == [Emit(Live(EventsIn(rows)), c, eventId, now)]
                    && W.Builds(rows, r.value))
  {
    var rows := RowsOf(t.eventStore, p);
    W.LoadIsFaithful(t.eventStore, p, now);
    if rows != [] {
      var view := LoadFrom(t.eventStore, p, now).value;
      if Do(view, c, eventId, now).Ok? {
        W.IssueKeepsBuilds(rows, view, c, eventId, now);
      }
    }
  }

  /**
    On a sound log, a service transition that succeeds adds one event to the payment's own stream: the next version, and
    what the command emits on the stream's live state, where its guard held; it names what the creation named, and a
    refund's event its whole amount. No other stream changes.
   */
  lemma ChangeAddsItsEvent(t: Tables, debug: bool, p: Id, c: Command, eventId: Id, now: Time, stamp: Stamp, q: Id)
    requires W.StreamsOk(t.eventStore) && ChangePayment(t, debug, p, c, eventId, now, stamp).Ok?
    ensures var u, rows := ChangePayment(t, debug, p, c, eventId, now, stamp).value, RowsOf(t.eventStore, p);
            && W.StreamsOk(u.eventStore) && Legal(EventsIn(rows))
            && Guard(Live(EventsIn(rows)).status, c).None?
            && RowsOf(u.eventStore, p)
               == rows + [StoreRow(stamp.rowId, p, |rows| + 1, Emit(Live(EventsIn(rows)), c, eventId, now), stamp.at)]
            && rows[0].event.body.Created? && Refusal(EventsIn(rows), c).None?
            && Emit(Live(EventsIn(rows)), c, eventId, now) == WrittenEvent(rows[0].event, c, eventId, now)
            && (q != p ==> RowsOf(u.eventStore, q) == RowsOf(t.eventStore, q))
  {
    assert W.StreamOk(RowsOf(t.eventStore, p), p);
    LoadedChange(t, p, c, eventId, now);
    CommandAnswers(EventsIn(RowsOf(t.eventStore, p)), c);
    CommandWrites(EventsIn(RowsOf(t.eventStore, p)), c, eventId, now);
    var view := LoadFrom(t.eventStore, p, now).value;
    PersistAddsRow(t, debug, Do(view, c, eventId, now).value, stamp, q);
  }

  /**
    On a sound log and with fresh keys, a transition commits exactly when its payment is stored, its guard holds there
    and, with DEBUG on, the projector accepts its event.
   */
  lemma ChangeCommitsIff(t: Tables, debug: bool, p: Id, c: Command, eventId: Id, now: Time, stamp: Stamp)
    requires W.StreamsOk(t.eventStore) && Fresh(t, stamp)
    ensures var rows := RowsOf(t.eventStore, p);
            && (rows != [] ==> Legal(EventsIn(rows)))
            && (ChangePayment(t, debug, p, c, eventId, now, stamp).Ok? <==>
                  && rows != [] && Guard(Live(EventsIn(rows)).status, c).None?
                  && Projects(t, debug, Emit(Live(EventsIn(rows)), c, eventId, now)))
  {
    assert W.StreamOk(RowsOf(t.eventStore, p), p);
    LoadedChange(t, p, c, eventId, now);
    if LoadFrom(t.eventStore, p, now).Ok? {
      var r := Do(LoadFrom(t.eventStore, p, now).value, c, eventId, now);
      if r.Ok? {
        FreshSaveCommitsIff(t, debug, r.value, stamp);
      }
    }
  }

  lemma LoadedAnswers(t: Tables, p: Id, c: Command, eventId: Id, now: Time)
    requires W.StreamOk(RowsOf(t.eventStore, p), p) && RowsOf(t.eventStore, p) != []
    ensures var rows := RowsOf(t.eventStore, p);
            && LoadFrom(t.eventStore, p, now).Ok? && Legal(EventsIn(rows)) && rows[0].event.body.Created?
            && var r := Do(LoadFrom(t.eventStore, p, now).value, c, eventId, now);
               match Refusal(EventsIn(rows), c)
               case Some(error) => r == Err(error)
               case None => r.Ok? && r.value.uncommitted == [WrittenEvent(rows[0].event, c, eventId, now)]
  {
    var rows := RowsOf(t.eventStore, p);
    W.LoadIsFaithful(t.eventStore, p, now);
    CommandAnswers(EventsIn(rows), c);
    CommandWrites(EventsIn(rows), c, eventId, now);
  }

  /**
    What a transition answers, told from the payment's history: a missing payment, the command's own refusal, or, with
    DEBUG on, the projector's; with fresh keys there is no other.
   */
  lemma ChangeAnswers(t: Tables, debug: bool, p: Id, c: Command, eventId: Id, now: Time, stamp: Stamp)
    requires W.StreamsOk(t.eventStore) && Fresh(t, stamp)
    ensures var rows, made := RowsOf(t.eventStore, p), ChangePayment(t, debug, p, c, eventId, now, stamp);
            if rows == [] then made == Err(Refused(PaymentNotFound))
            else
              && Legal(EventsIn(rows)) && rows[0].event.body.Created?
              && match Refusal(EventsIn(rows), c)
                 case Some(error) => made == Err(Refused(error))
                 case None =>
                   var projected := Projection.ApplyFromEvent(t, WrittenEvent(rows[0].event, c, eventId, now));
                   if debug && projected.Err? then made == Err(NotPersisted(ProjectionFailed(projected.error)))
                   else made.Ok?
  {
    var rows := RowsOf(t.eventStore, p);
    assert W.StreamOk(rows, p);
    LoadedChange(t, p, c, eventId, now);
    if rows != [] {
      LoadedAnswers(t, p, c, eventId, now);
      var r := Do(LoadFrom(t.eventStore, p, now).value, c, eventId, now);
      if r.Ok? {
        FreshSaveCommitsIff(t, debug, r.value, stamp);
      }
    }
  }

  lemma ProjectsIff(t: Tables, p: Payment, c: Command, eventId: Id, now: Time)
    requires SyncProjection.Synced(t) && Guard(p.status, c).None?
    requires p.paymentId in t.payments && Projection.Shows(t.payments[p.paymentId], p)
    ensures Projects(t, true, Emit(p, c, eventId, now)) <==> p.status != FAILED
    ensures p.status == FAILED ==>
              Projection.ApplyFromEvent(t, Emit(p, c, eventId, now)) == Err(Projection.InvariantViolation)
  {
  }

  /**
    In every run with DEBUG on, a transition commits exactly when its payment is stored, its guard holds and the payment
    has not failed: what the aggregate allows after a failure the projector rolls back.
   */
  lemma SyncedChangeCommitsIff(steps: seq<W.Step>, p: Id, c: Command, eventId: Id, now: Time, stamp: Stamp)
    requires Fresh(W.Run(steps, true).db, stamp)
    ensures var t := W.Run(steps, true).db;
            var rows := RowsOf(t.eventStore, p);
            && (rows != [] ==> Legal(EventsIn(rows)))
            && (ChangePayment(t, true, p, c, eventId, now, stamp).Ok? <==>
                  && rows != [] && Guard(Live(EventsIn(rows)).status, c).None?
                  && Live(EventsIn(rows)).status != FAILED)
            && (rows != [] && Refusal(EventsIn(rows), c).None? && LastKind(EventsIn(rows)) == PAYMENT_FAILED ==>
                  ChangePayment(t, true, p, c, eventId, now, stamp)
                  == Err(NotPersisted(ProjectionFailed(Projection.InvariantViolation))))
  {
    var t := W.Run(steps, true).db;
    var rows := RowsOf(t.eventStore, p);
    W.EveryRunIsSound(steps, true);
    ChangeCommitsIff(t, true, p, c, eventId, now, stamp);
    ChangeAnswers(t, true, p, c, eventId, now, stamp);
    SyncProjection.SynchronousProjectionAgrees(steps);
    SyncProjection.ReadModelShowsEveryAggregate(steps, p);
    if rows != [] {
      var live := Live(EventsIn(rows));
      assert W.StreamOk(rows, p);
      LiveKeepsCore(EventsIn(rows));
      CommandAnswers(EventsIn(rows), c);
      CommandWrites(EventsIn(rows), c, eventId, now);
      Projection.StatusIsOfLastEvent(EventsIn(rows));
      if Guard(live.status, c).None? {
        ProjectsIff(t, live, c, eventId, now);
      }
    }
  }

  lemma OpenedBuilds(rows: seq<StoreRow>, c: Creation, paymentId: Id, eventId: Id, now: Time)
    requires Open(c, paymentId, eventId, now).Ok?
    ensures var a := Open(c, paymentId, eventId, now).value;
            && a.version == 1 && |a.uncommitted| == 1 && a.core.paymentId == paymentId
            && W.Builds(rows, a) && Genesis(a.uncommitted[0]) && Projectable(a.uncommitted[0])
  {
    var a := Open(c, paymentId, eventId, now).value;
    OpenWritesGenesis(c, paymentId, eventId, now);
    LiveKeepsCore(a.uncommitted);
    assert EventsIn(rows)[..0] + a.uncommitted == a.uncommitted;
  }

  // ---------- what a creation answers, told from its request ----------

  predicate Blank(s: string) {
    forall i :: 0 <= i < |s| ==> IsSpace(s[i])
  }

  lemma {:induction false} LeftOfBlank(s: string)
    ensures StripLeft(s) == "" <==> Blank(s)
    ensures Blank(StripLeft(s)) <==> Blank(s)
  {
    if s != "" && IsSpace(s[0]) {
      LeftOfBlank(s[1..]);
      assert Blank(s) <==> Blank(s[1..]) by {
        assert forall i :: 1 <= i < |s| ==> s[i] == s[1..][i - 1];
      }
    }
  }

  lemma {:induction false} RightOfBlank(s: string)
    ensures StripRight(s) == "" <==> Blank(s)
  {
    if s != "" && IsSpace(s[|s| - 1]) {
      RightOfBlank(s[..|s| - 1]);
      assert Blank(s) <==> Blank(s[..|s| - 1]);
    }
  }

  lemma StripsToNothing(s: string)
    ensures Strip(s) == "" <==> Blank(s)
  {
    LeftOfBlank(s);
    RightOfBlank(StripLeft(s));
  }

  predicate KnownMeans(means: string) {
    means == "wallet" || means == "credit_card" || means == "bank_transfer" || means == "paypal" || means == "other"
  }

  lemma MeansParse(means: string)
    ensures ParseMethod(means).Some? <==> KnownMeans(means)
    ensures KnownMeans(means) ==>
              MethodText(ParseMethod(means).value) == means && (ParseMethod(means).value == WALLET <==> means == "wallet")
    ensures means == "credit_card" ==> ParseMethod(means) == Some(CREDIT_CARD)
    ensures means == "bank_transfer" ==> ParseMethod(means) == Some(BANK_TRANSFER)
    ensures means == "paypal" ==> ParseMethod(means) == Some(PAYPAL)
    ensures means == "other" ==> ParseMethod(means) == Some(OTHER)
  {
    ParsedText("", means);
    MethodTextParses(WALLET);
    MethodTextParses(CREDIT_CARD);
    MethodTextParses(BANK_TRANSFER);
    MethodTextParses(PAYPAL);
    MethodTextParses(OTHER);
  }

  /** The first thing wrong with a request, in the order the service looks; None if there is nothing. */
  function CreationRefusal(log: seq<StoreRow>, c: Creation, means: string, p: Id): Option<ServiceError> {
    if Blank(c.currency) then Some(CurrencyRequired)
    else if !c.CreateRefund? && Blank(means) then Some(MethodRequired)
    else if !c.CreateRefund? && !KnownMeans(means) then Some(UnknownMethod)
    else if c.CreateRefund? && RowsOf(log, c.originalId) == [] then Some(Refused(PaymentNotFound))
    else if c.CreateRefund? && c.amount > CreatedAmount(RowsOf(log, c.originalId)[0]) then
      Some(Refused(RefundExceedsOriginal))
    else if (c.CreateDeposit? || c.CreateWithdrawal?) && means == "wallet" then Some(Refused(MethodNotSupported))
    else if c.amount <= 0 then Some(Refused(InvalidAmount))
    else if RowsOf(log, p) != [] then Some(NotPersisted(ConcurrencyConflict))
    else None
  }

  function CreatedAmount(r: StoreRow): int {
    if r.event.body.Created? then r.event.body.amount else 0
  }

  lemma PreparedIs(c: Creation, means: string)
    ensures var r := Prepared(c, means);
            if Blank(c.currency) then r == Err(CurrencyRequired)
            else if c.CreateRefund? then r == Ok(c)
            else if Blank(means) then r == Err(MethodRequired)
            else if !KnownMeans(means) then r == Err(UnknownMethod)
            else
              && r.Ok? && ParseMethod(means).Some? && r == Ok(c.(payMethod := ParseMethod(means).value))
              && (r.value.payMethod == WALLET <==> means == "wallet") && MethodText(r.value.payMethod) == means
  {
    StripsToNothing(c.currency);
    StripsToNothing(means);
    MeansParse(means);
  }

  /** What the factory writes for a prepared request is told by the request and the text of its method. */
  lemma PreparedWrites(c: Creation, means: string, p: Id, eventId: Id, now: Time)
    requires Prepared(c, means).Ok? && Open(Prepared(c, means).value, p, eventId, now).Ok?
    ensures Open(Prepared(c, means).value, p, eventId, now).value.uncommitted
         == [Event(eventId, now, 1, p, c.walletId, c.userId, RequestedBody(c, means))]
  {
    PreparedIs(c, means);
    CreationWrites(Prepared(c, means).value, p, eventId, now);
  }

  /** A second creation under one payment id meets version 1. */
  lemma SecondSaveConflicts(t: Tables, debug: bool, a: Aggregate, stamp: Stamp)
    requires W.StreamsOk(t.eventStore) && a.version == |a.uncommitted| == 1
    requires RowsOf(t.eventStore, a.core.paymentId) != []
    ensures Persist(t, debug, a, stamp) == Err(NotPersisted(ConcurrencyConflict))
  {
    var p := a.core.paymentId;
    var first := RowsOf(t.eventStore, p)[0];
    assert W.StreamOk(RowsOf(t.eventStore, p), p);
    RowsOfMembers(t.eventStore, p, first);
    assert first.version == 1;
    AppendAnswers(t, debug, p, 1, a.uncommitted[0], stamp);
    AppendPeels(t, debug, p, 0, a.uncommitted, [stamp], 0);
    assert a.uncommitted[0..] == a.uncommitted && [stamp][0..] == [stamp];
  }

  lemma OpenedAnswers(t: Tables, debug: bool, c: Creation, paymentId: Id, eventId: Id, now: Time, stamp: Stamp)
    requires W.StreamsOk(t.eventStore) && Fresh(t, stamp) && Open(c, paymentId, eventId, now).Ok?
    ensures var made := Persist(t, debug, Open(c, paymentId, eventId, now).value, stamp);
            if RowsOf(t.eventStore, paymentId) != [] then made == Err(NotPersisted(ConcurrencyConflict)) else made.Ok?
  {
    var a := Open(c, paymentId, eventId, now).value;
    OpenedBuilds(RowsOf(t.eventStore, paymentId), c, paymentId, eventId, now);
    FirstSaveCommitsIff(t, debug, a, stamp, paymentId);
    if RowsOf(t.eventStore, paymentId) != [] {
      SecondSaveConflicts(t, debug, a, stamp);
    }
  }

  /** Behind the request's own checks: the original, the factory, the stream. */
  lemma CreatePreparedAnswers(t: Tables, debug: bool, c: Creation, p: Id, eventId: Id, now: Time, stamp: Stamp)
    requires W.StreamsOk(t.eventStore) && Fresh(t, stamp)
    ensures var made := CreatePrepared(t, debug, c, p, eventId, now, stamp);
            if c.CreateRefund? && RowsOf(t.eventStore, c.originalId) == [] then made == Err(Refused(PaymentNotFound))
            else if c.CreateRefund? && c.amount > CreatedAmount(RowsOf(t.eventStore, c.originalId)[0]) then
              made == Err(Refused(RefundExceedsOriginal))
            else if (c.CreateDeposit? || c.CreateWithdrawal?) && c.payMethod == WALLET then
              made == Err(Refused(MethodNotSupported))
            else if c.amount <= 0 then made == Err(Refused(InvalidAmount))
            else if RowsOf(t.eventStore, p) != [] then made == Err(NotPersisted(ConcurrencyConflict))
            else made.Ok?
  {
    Refunds.RefundCheckIs(t.eventStore, c, now);
    if Open(c, p, eventId, now).Ok? {
      OpenedAnswers(t, debug, c, p, eventId, now, stamp);
    }
  }

  /** On a sound log with fresh keys a creation is refused for the first thing wrong with its request, or commits. */
  lemma CreationAnswers(t: Tables, debug: bool, c: Creation, means: string, p: Id, eventId: Id, now: Time, stamp: Stamp)
    requires W.StreamsOk(t.eventStore) && Fresh(t, stamp)
    ensures var made := CreatePayment(t, debug, c, means, p, eventId, now, stamp);
            match CreationRefusal(t.eventStore, c, means, p)
            case Some(error) => made == Err(error)
            case None => made.Ok?
  {
    PreparedIs(c, means);
    if Prepared(c, means).Ok? {
      CreatePreparedAnswers(t, debug, Prepared(c, means).value, p, eventId, now, stamp);
    }
  }

  lemma FirstSaveCommitsIff(t: Tables, debug: bool, a: Aggregate, stamp: Stamp, q: Id)
    requires W.StreamsOk(t.eventStore) && Fresh(t, stamp) && a.version == |a.uncommitted| == 1
    requires W.Builds(RowsOf(t.eventStore, a.core.paymentId), a) && Projectable(a.uncommitted[0])
    ensures var made, p := Persist(t, debug, a, stamp), a.core.paymentId;
            && (made.Ok? <==> RowsOf(t.eventStore, p) == [])
            && (made.Ok? ==> W.StreamsOk(made.value.eventStore)
                             && RowsOf(made.value.eventStore, p) == [StoredAs(a, stamp)]
                             && (q != p ==> RowsOf(made.value.eventStore, q) == RowsOf(t.eventStore, q)))
  {
    if Persist(t, debug, a, stamp).Ok? {
      PersistAddsRow(t, debug, a, stamp, q);
    }
    if RowsOf(t.eventStore, a.core.paymentId) == [] {
      assert W.StreamOk(RowsOf(t.eventStore, a.core.paymentId), a.core.paymentId);
      FreshSaveCommitsIff(t, debug, a, stamp);
    }
  }

  /**
    On a sound log and with fresh keys, a creation commits exactly when its request and its refund check pass, its
    factory accepts it, and its payment id has no rows; then the payment's stream is one genesis row at version 1 that
    carries the request: its wallet, user and amount, the method its text names, its reference and description.
   */
  lemma CreationCommitsIff(t: Tables, debug: bool, c: Creation, means: string, p: Id, eventId: Id, now: Time,
                           stamp: Stamp, q: Id)
    requires W.StreamsOk(t.eventStore) && Fresh(t, stamp)
    ensures var made := CreatePayment(t, debug, c, means, p, eventId, now, stamp);
            && (made.Ok? <==>
                  && Prepared(c, means).Ok? && W.RefundCheck(t.eventStore, Prepared(c, means).value, now).None?
                  && Open(Prepared(c, means).value, p, eventId, now).Ok? && RowsOf(t.eventStore, p) == [])
            && (made.Ok? ==>
                  && W.StreamsOk(made.value.eventStore) && |RowsOf(made.value.eventStore, p)| == 1
                  && RowsOf(made.value.eventStore, p)[0].version == 1
                  && Genesis(RowsOf(made.value.eventStore, p)[0].event)
                  && RowsOf(made.value.eventStore, p)[0].event
                     == Event(eventId, now, 1, p, c.walletId, c.userId, RequestedBody(c, means))
                  && (q != p ==> RowsOf(made.value.eventStore, q) == RowsOf(t.eventStore, q)))
  {
    if Prepared(c, means).Ok? && Open(Prepared(c, means).value, p, eventId, now).Ok? {
      OpenedBuilds(RowsOf(t.eventStore, p), Prepared(c, means).value, p, eventId, now);
      PreparedWrites(c, means, p, eventId, now);
      FirstSaveCommitsIff(t, debug, Open(Prepared(c, means).value, p, eventId, now).value, stamp, q);
    }
  }
}
