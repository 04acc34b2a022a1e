/** The idempotent executor: claim, execute, record. One request runs here without interruption. */
module Executor {
  import opened Basics
  import opened Payments
  import Streams
  import Projection
  import SyncProjection
  import opened Storage
  import opened EventStore
  import W = WriteSide
  import opened CommandService
  import opened Idempotency
  import opened LeaseProtocol

  /** What one request takes from outside: fresh identifiers, one insert's stamp and the clock. */
  datatype Plan = Plan(paymentId: Id, eventId: Id, rid: Id, stamp: Stamp, now: Time)

  /**
    Why the caller gets an exception: a conflict, a failed claim, a replayed error, a missing view, or its own
    command's.
   */
  datatype Cause =
    | PayloadMismatch
    | InProgress
    | ProcessingFailed
    | StoredError(error: string)
    | ViewNotFound
    | Raising(outcome: Outcome)

  /** What the caller gets: the view built after the command, the view fetched for a replay, or an exception. */
  datatype Reply = Built(paymentId: Id) | Fetched(paymentId: Id, view: PaymentRow) | Raised(cause: Cause)

  datatype Attempt = Attempt(answer: Answer, reply: Reply, tables: Tables, row: Option<KeyRow>)

  function OutcomeOf(made: Result<Tables, ServiceError>, r: Request, paymentId: Id): Outcome {
    match made
    case Ok(_) => AfterAppend(r, paymentId)
    case Err(NotPersisted(_)) => Failure("append")
    case Err(_) => Failure("command")
  }

  /** record_success or record_failure on a row nobody else touches. */
  function RecordOnce(row: Option<KeyRow>, r: Request, o: Outcome, now: Time): Option<Option<KeyRow>> {
    var image := PrepareRecord(row, LeaseProtocol.StatusFor(o), ResponseFor(r, o), now);
    if image.None? then None else Some(WriteImage(row, image.value))
  }

  /** A success that cannot be recorded is recorded as a failure; a failure that cannot is left at that. */
  function RecordOutcome(row: Option<KeyRow>, r: Request, o: Outcome, now: Time): (Answer, Option<KeyRow>) {
    match RecordOnce(row, r, o, now)
    case Some(after) => (Recorded, after)
    case None =>
      match if o.Paid? then RecordOnce(row, r, Failure("record"), now) else None
      case Some(after) => (Recorded, after)
      case None => (GaveUp, row)
  }

  function Replayable(row: Option<KeyRow>, now: Time): Option<Response> {
    if row.Some? then ReplayResponse(row.value, now) else None
  }

  /** A replayed error is raised again; a replayed payment is fetched from the read model, which may not have it. */
  function ReplayReply(response: Response, payments: ReadModel): Reply {
    match response.body
    case ErrorBody(error) => Raised(StoredError(error))
    case PaymentBody(p, _, _) => if p in payments then Fetched(p, payments[p]) else Raised(ViewNotFound)
  }

  function ConflictReply(reason: Reason): Reply {
    match reason
    case FingerprintMismatch => Raised(PayloadMismatch)
    case AlreadyLocked => Raised(InProgress)
    case KeyExpired => Raised(ProcessingFailed)
  }

  /** The view is returned only once its success is recorded; any other end raises. */
  function CommandReply(o: Outcome, recorded: bool): Reply {
    if !o.Paid? then Raised(Raising(o))
    else if recorded then Built(o.paymentId)
    else Raised(Raising(Failure("record")))
  }

  function Execute(t: Tables, row: Option<KeyRow>, debug: bool, r: Request, p: Plan): Attempt {
    if Replayable(row, p.now).Some? then
      var response := Replayable(row, p.now).value;
      Attempt(Replayed(response), ReplayReply(response, t.payments), t, row)
    else
      var (claim, held) := FinishClaim(row, row, r.fingerprint, r.locker, p.now, p.now, p.rid);
      match claim
      case Replay(response) => Attempt(Replayed(response), ReplayReply(response, t.payments), t, held)
      case Conflict(reason) => Attempt(Rejected(reason), ConflictReply(reason), t, held)
      case ClaimRaised => Attempt(Errored, Raised(ProcessingFailed), t, held)
      case Acquired(_) =>
        var made := CreatePayment(t, debug, r.creation, r.means, p.paymentId, p.eventId, p.now, p.stamp);
        var o := OutcomeOf(made, r, p.paymentId);
        var (answer, after) := RecordOutcome(held, r, o, p.now);
        Attempt(answer, CommandReply(o, RecordOnce(held, r, o, p.now).Some?), if made.Ok? then made.value else t, after)
  }

  class IdempotentPaymentExecutor {
    const keys: IdempotencyRepository
    const payments: PaymentCommandService

    constructor (keys: IdempotencyRepository, payments: PaymentCommandService)
      ensures this.keys == keys && this.payments == payments
    {
      this.keys, this.payments := keys, payments;
    }

    method RecordResponse(r: Request, o: Outcome, now: Time) returns (answer: Answer, recorded: bool)
      modifies keys
      ensures (answer, keys.row) == RecordOutcome(old(keys.row), r, o, now)
      ensures recorded <==> RecordOnce(old(keys.row), r, o, now).Some?
    {
      recorded := keys.Record(LeaseProtocol.StatusFor(o), ResponseFor(r, o), now, keys.row);
      var ok := recorded;
      if !ok && o.Paid? {
        var failure := Failure("record");
        ok := keys.Record(LeaseProtocol.StatusFor(failure), ResponseFor(r, failure), now, keys.row);
      }
      answer := if ok then Recorded else GaveUp;
    }

    method FetchView(response: Response) returns (reply: Reply)
      ensures reply == ReplayReply(response, payments.repo.store.db.payments)
    {
      match response.body {
        case ErrorBody(error) => reply := Raised(StoredError(error));
        case PaymentBody(p, _, _) =>
          var view := payments.repo.store.db.payments;
          reply := if p in view then Fetched(p, view[p]) else Raised(ViewNotFound);
      }
    }

    method ExecutePaymentCreation(r: Request, p: Plan) returns (answer: Answer, reply: Reply)
      requires payments.repo.store.outbox.db == payments.repo.store.db
      modifies keys, payments.repo.store.db
      ensures Attempt(answer, reply, payments.repo.store.db.View(), keys.row)
           == Execute(old(payments.repo.store.db.View()), old(keys.row), payments.repo.store.debug, r, p)
    {
      if keys.row.Some? {
        var replay := ReplayResponse(keys.row.value, p.now);
        if replay.Some? {
          reply := FetchView(replay.value);
          return Replayed(replay.value), reply;
        }
      }
      var claim := keys.ClaimOrReplay(r.fingerprint, r.locker, p.now, p.now, p.rid, keys.row);
      match claim {
        case Replay(response) =>
          reply := FetchView(response);
          return Replayed(response), reply;
        case Conflict(reason) =>
          match reason {
            case FingerprintMismatch => return Rejected(reason), Raised(PayloadMismatch);
            case AlreadyLocked => return Rejected(reason), Raised(InProgress);
            case KeyExpired => return Rejected(reason), Raised(ProcessingFailed);
          }
        case ClaimRaised => return Errored, Raised(ProcessingFailed);
        case Acquired(_) =>
      }
      var failure := payments.Create(r.creation, r.means, p.paymentId, p.eventId, p.now, p.stamp);
      var outcome := Paid(p.paymentId);
      if failure.Some? {
        outcome := Failure(if failure.value.NotPersisted? then "append" else "command");
      } else if r.creation.CreateRefund? {
        outcome := Failure("view");
      }
      var recorded;
      answer, recorded := RecordResponse(r, outcome, p.now);
      if outcome.Paid? && recorded {
        reply := Built(p.paymentId);
      } else {
        reply := Raised(Raising(if outcome.Paid? then Failure("record") else outcome));
      }
    }
  }

  // ---------- one request by itself ----------

  lemma ClaimAlone(row: Option<KeyRow>, r: Request, now: Time, rid: Id)
    requires row.Some? ==> RowOk(row.value)
    ensures var (claim, held) := FinishClaim(row, row, r.fingerprint, r.locker, now, now, rid);
            && !claim.ClaimRaised?
            && (claim.Acquired? <==> row.None?
                                     || (now < row.value.expiresAt && row.value.status == Pending
                                         && row.value.fingerprint == r.fingerprint && IsLockExpired(row.value, now)))
            && (claim.Acquired? ==> held.Some? && held.value.status == Pending && now < held.value.expiresAt)
            && (!claim.Acquired? ==> held == row)
  {
  }

  /**
    A request that runs alone either executes nothing and changes nothing, or records what its command did: COMPLETED
    with the payment it stored, whose view the caller gets, or FAILED, and the caller gets the command's exception.
   */
  lemma AloneItIsAllOrNothing(t: Tables, row: Option<KeyRow>, debug: bool, r: Request, p: Plan)
    requires row.Some? ==> RowOk(row.value)
    ensures var a := Execute(t, row, debug, r, p);
            var made := CreatePayment(t, debug, r.creation, r.means, p.paymentId, p.eventId, p.now, p.stamp);
            && (a.answer.Replayed? || a.answer.Rejected? || a.answer.Recorded?)
            && (!a.answer.Recorded? ==> a.tables == t && a.row == row)
            && (a.answer.Recorded? ==>
                  && a.row.Some? && RowOk(a.row.value) && a.row.value.status != Pending && p.now < a.row.value.expiresAt
                  && (made.Ok? ==> a.tables == made.value) && (made.Err? ==> a.tables == t)
                  && (a.row.value.status == Completed <==> made.Ok? && !r.creation.CreateRefund?)
                  && a.row.value.response == Some(ResponseFor(r, OutcomeOf(made, r, p.paymentId)))
                  && (a.row.value.status == Completed ==> a.reply == Built(p.paymentId))
                  && (a.row.value.status != Completed ==> a.reply == Raised(Raising(OutcomeOf(made, r, p.paymentId)))))
  {
    ClaimAlone(row, r, p.now, p.rid);
  }

  /**
    Recording is all or nothing: on a pending, unexpired key it succeeds, on any other even the fallback is given up.
   */
  lemma RecordOutcomeIs(row: Option<KeyRow>, r: Request, o: Outcome, now: Time)
    ensures RecordOutcome(row, r, o, now)
         == if row.Some? && row.value.status == Pending && now < row.value.expiresAt
            then (Recorded,
                  Some(row.value.(status := if o.Paid? then Completed else KeyStatus.Failed,
                                  response := Some(ResponseFor(r, o)), lockedUntil := None, lockedBy := None)))
            else (GaveUp, row)
  {
  }

  /** What a request meets that does not get to execute, by the fields of its key. */
  function Turned(x: KeyRow, fingerprint: string, now: Time): Option<Cause> {
    if x.expiresAt <= now then Some(ProcessingFailed)
    else if x.fingerprint != fingerprint then Some(PayloadMismatch)
    else if x.lockedUntil.Some? && now < x.lockedUntil.value then Some(InProgress)
    else None
  }

  /**
    The caller's exception when its key is pending or expired: each conflict has its own. A finished, unexpired key
    raises its stored error again or shows its payment, whatever the payload. Nothing is executed or changed.
   */
  lemma ConflictAnswers(t: Tables, x: KeyRow, debug: bool, r: Request, p: Plan)
    requires RowOk(x)
    ensures var a := Execute(t, Some(x), debug, r, p);
            if x.status != Pending && p.now < x.expiresAt then
              && x.response.Some? && a.answer == Replayed(x.response.value) && a.tables == t && a.row == Some(x)
              && match x.response.value.body
                 case ErrorBody(error) => a.reply == Raised(StoredError(error))
                 case PaymentBody(id, _, _) =>
                   a.reply == if id in t.payments then Fetched(id, t.payments[id]) else Raised(ViewNotFound)
            else
              match Turned(x, r.fingerprint, p.now)
              case Some(cause) => a.answer.Rejected? && a.reply == Raised(cause) && a.tables == t && a.row == Some(x)
              case None => a.answer.Recorded?
  {
  }

  /** How a request's execution ends, by what its creation answers. */
  function Ending(refusal: Option<ServiceError>, r: Request, p: Plan): Outcome {
    match refusal
    case Some(NotPersisted(_)) => Failure("append")
    case Some(_) => Failure("command")
    case None => if r.creation.CreateRefund? then Failure("view") else Paid(p.paymentId)
  }

  lemma EndingIs(t: Tables, debug: bool, r: Request, p: Plan)
    requires W.StreamsOk(t.eventStore) && Fresh(t, p.stamp)
    ensures OutcomeOf(CreatePayment(t, debug, r.creation, r.means, p.paymentId, p.eventId, p.now, p.stamp), r, p.paymentId)
         == Ending(CreationRefusal(t.eventStore, r.creation, r.means, p.paymentId), r, p)
  {
    CreationAnswers(t, debug, r.creation, r.means, p.paymentId, p.eventId, p.now, p.stamp);
  }

  lemma FreeKeyExecutes(t: Tables, row: Option<KeyRow>, debug: bool, r: Request, p: Plan)
    requires row.Some? ==> RowOk(row.value) && row.value.status == Pending && Turned(row.value, r.fingerprint, p.now).None?
    ensures Execute(t, row, debug, r, p).answer == Recorded
  {
    ClaimAlone(row, r, p.now, p.rid);
  }

  /**
    A request that gets to execute, told from its own fields: its creation is refused for the first thing wrong with it,
    or stored; the caller gets the view exactly of a stored payment that is no refund, and the key records the same.
   */
  lemma ExecutionAnswers(t: Tables, row: Option<KeyRow>, debug: bool, r: Request, p: Plan)
    requires row.Some? ==> RowOk(row.value) && row.value.status == Pending && Turned(row.value, r.fingerprint, p.now).None?
    requires W.StreamsOk(t.eventStore) && Fresh(t, p.stamp)
    ensures var a := Execute(t, row, debug, r, p);
            var o := Ending(CreationRefusal(t.eventStore, r.creation, r.means, p.paymentId), r, p);
            && a.answer == Recorded && a.row.Some?
            && match o
               case Paid(id) =>
                 && a.reply == Built(id) && a.row.value.status == Completed
                 && a.row.value.response == Some(Response(200, PaymentBody(id, r.creation.amount, r.creation.currency)))
               case Failure(error) =>
                 && a.reply == Raised(Raising(o)) && a.row.value.status == KeyStatus.Failed
                 && a.row.value.response == Some(Response(400, ErrorBody(error)))
  {
    FreeKeyExecutes(t, row, debug, r, p);
    EndingIs(t, debug, r, p);
    AloneItIsAllOrNothing(t, row, debug, r, p);
  }

  /**
    The next request with the key, whatever its payload, is answered with the recorded response and executes nothing.
   */
  lemma RepeatIsReplay(t: Tables, row: Option<KeyRow>, debug: bool, r: Request, p: Plan,
                       now: Tables, again: Request, q: Plan)
    requires row.Some? ==> RowOk(row.value)
    requires Execute(t, row, debug, r, p).answer.Recorded?
    requires q.now < Execute(t, row, debug, r, p).row.value.expiresAt
    ensures var a := Execute(t, row, debug, r, p);
            a.row.value.response.Some?
            && var response := a.row.value.response.value;
               Execute(now, a.row, debug, again, q)
               == Attempt(Replayed(response), ReplayReply(response, now.payments), now, a.row)
  {
    AloneItIsAllOrNothing(t, row, debug, r, p);
  }

  /**
    With DEBUG on a replayed success always finds its payment: whatever the run of the protocol, the caller gets the
    payment's current row, which shows the stored aggregate.
   */
  lemma ReplayShowsThePayment(cfg: Config, now: Time, steps: seq<LeaseProtocol.Step>)
    requires cfg.debug
    requires Play(cfg, now, steps).row.Some? && Play(cfg, now, steps).row.value.status == Completed
    ensures var s := Play(cfg, now, steps);
            var response, db := s.row.value.response, Db(cfg, s).db;
            && response.Some? && response.value.body.PaymentBody?
            && var p := response.value.body.paymentId;
               && p in db.payments && ReplayReply(response.value, db.payments) == Fetched(p, db.payments[p])
               && Streams.Legal(EventsIn(RowsOf(db.eventStore, p)))
               && Projection.Shows(db.payments[p], Streams.Live(EventsIn(RowsOf(db.eventStore, p))))
  {
    var s := Play(cfg, now, steps);
    CompletedNamesStoredPayment(cfg, now, steps);
    SyncProjection.ReadModelShowsEveryAggregate(s.history, s.row.value.response.value.body.paymentId);
  }

  // ---------- the executor against the lease protocol ----------

  function CallAll(cfg: Config, s: Service, w: nat, calls: seq<Call>): Service
    decreases |calls|
  {
    if calls == [] then s else CallAll(cfg, WorkerStep(cfg, s, w, calls[0]), w, calls[1..])
  }

  function ClaimCalls(p: Plan): seq<Call> {
    [Look, BeginClaim, ReadClaim, WriteClaim(p.now, p.rid)]
  }

  function CommandCalls(p: Plan): seq<Call> {
    [OpenPayment(p.paymentId, p.eventId, p.now), AppendPayment([p.stamp])]
  }

  const RECORD_CALLS: seq<Call> := [ReadRecord, WriteRecord(true)]

  lemma TwoCalls(cfg: Config, s: Service, w: nat, a: Call, b: Call, t: Service, u: Service)
    requires WorkerStep(cfg, s, w, a) == t && WorkerStep(cfg, t, w, b) == u
    ensures CallAll(cfg, s, w, [a, b]) == u
  {
    assert [a, b][1..] == [b] && [b][1..] == [];
    assert CallAll(cfg, t, w, [b]) == u;
  }

  lemma {:induction false} CallsAppend(cfg: Config, s: Service, w: nat, a: seq<Call>, b: seq<Call>)
    ensures CallAll(cfg, s, w, a + b) == CallAll(cfg, CallAll(cfg, s, w, a), w, b)
    decreases |a|
  {
    if a == [] {
      assert a + b == b;
    } else {
      assert (a + b)[1..] == a[1..] + b;
      CallsAppend(cfg, WorkerStep(cfg, s, w, a[0]), w, a[1..], b);
    }
  }

  ghost predicate Ready(cfg: Config, s: Service, w: nat, p: Plan) {
    w in s.phases && w in cfg.requests && s.now == p.now
  }

  /** Where the claim's calls leave a worker that nobody interrupts. */
  function Claimed(cfg: Config, s: Service, w: nat, p: Plan): Service
    requires w in cfg.requests
  {
    var r := cfg.requests[w];
    if Replayable(s.row, p.now).Some? then At(s, w, Done(Replayed(Replayable(s.row, p.now).value)))
    else
      var (claim, held) := FinishClaim(s.row, s.row, r.fingerprint, r.locker, p.now, p.now, p.rid);
      At(s, w, AfterClaim(claim)).(row := held, acquired := s.acquired + if claim.Acquired? then [w] else [])
  }

  lemma ClaimRuns(cfg: Config, s: Service, w: nat, p: Plan)
    requires Ready(cfg, s, w, p) && s.phases[w].Start?
    ensures CallAll(cfg, s, w, ClaimCalls(p)) == Claimed(cfg, s, w, p)
  {
    var s1 := At(s, w, AfterLook(s));
    if AfterLook(s).Done? {
      TwoCalls(cfg, s, w, Look, BeginClaim, s1, s1);
      TwoCalls(cfg, s1, w, ReadClaim, WriteClaim(p.now, p.rid), s1, s1);
      CallsAppend(cfg, s, w, [Look, BeginClaim], [ReadClaim, WriteClaim(p.now, p.rid)]);
    } else {
      var s2, s3 := At(s, w, Claiming(p.now)), At(s, w, Saw(p.now, s.row));
      TwoCalls(cfg, s, w, Look, BeginClaim, s1, s2);
      assert Claimed(cfg, s, w, p).phases == s3.phases[w := Claimed(cfg, s, w, p).phases[w]];
      TwoCalls(cfg, s2, w, ReadClaim, WriteClaim(p.now, p.rid), s3, Claimed(cfg, s, w, p));
      CallsAppend(cfg, s, w, [Look, BeginClaim], [ReadClaim, WriteClaim(p.now, p.rid)]);
    }
    assert ClaimCalls(p) == [Look, BeginClaim] + [ReadClaim, WriteClaim(p.now, p.rid)];
  }

  /** t differs from s only in where worker w stands, in the write side, and in what was executed. */
  predicate SameKey(s: Service, t: Service, w: nat) {
    && t.row == s.row && t.now == s.now && t.acquired == s.acquired
    && w in t.phases && t.phases == s.phases[w := t.phases[w]]
  }

  /** The command gets past its checks and its factory. */
  predicate Opens(cfg: Config, s: Service, r: Request, p: Plan) {
    && Prepared(r.creation, r.means).Ok?
    && W.RefundCheck(Db(cfg, s).db.eventStore, Prepared(r.creation, r.means).value, p.now).None?
    && Open(Prepared(r.creation, r.means).value, p.paymentId, p.eventId, p.now).Ok?
  }

  function ViewOf(r: Request, p: Plan): Aggregate
    requires Prepared(r.creation, r.means).Ok?
    requires Open(Prepared(r.creation, r.means).value, p.paymentId, p.eventId, p.now).Ok?
  {
    Open(Prepared(r.creation, r.means).value, p.paymentId, p.eventId, p.now).value
  }

  lemma RefusedCommandRuns(cfg: Config, s: Service, w: nat, p: Plan)
    requires Ready(cfg, s, w, p) && s.phases[w].Holding? && !Opens(cfg, s, cfg.requests[w], p)
    ensures CallAll(cfg, s, w, CommandCalls(p)) == At(s, w, Executed(Failure("command")))
  {
    var calls := CommandCalls(p);
    var t := At(s, w, Executed(Failure("command")));
    TwoCalls(cfg, s, w, calls[0], calls[1], t, t);
  }

  /** The service after the payment was opened in the worker's own memory. */
  function Opening(cfg: Config, s: Service, w: nat, p: Plan): Service
    requires w in cfg.requests && Prepared(cfg.requests[w].creation, cfg.requests[w].means).Ok?
  {
    var creation := Prepared(cfg.requests[w].creation, cfg.requests[w].means).value;
    At(s, w, Opened(p.paymentId)).(
      history := s.history + [W.Create(w, creation, p.paymentId, p.eventId, p.now)])
  }

  lemma CreateHolds(side: W.System, w: nat, c: Creation, paymentId: Id, eventId: Id, at: Time, debug: bool)
    requires W.RefundCheck(side.db.eventStore, c, at).None? && Open(c, paymentId, eventId, at).Ok?
    ensures W.Next(side, W.Create(w, c, paymentId, eventId, at), debug)
         == side.(editing := side.editing[w := Open(c, paymentId, eventId, at).value])
  {
  }

  lemma OpenCallOpens(cfg: Config, s: Service, w: nat, p: Plan)
    requires Ready(cfg, s, w, p) && s.phases[w].Holding? && Opens(cfg, s, cfg.requests[w], p)
    ensures WorkerStep(cfg, s, w, OpenPayment(p.paymentId, p.eventId, p.now)) == Opening(cfg, s, w, p)
  {
  }

  lemma OpeningHolds(cfg: Config, s: Service, w: nat, p: Plan)
    requires Ready(cfg, s, w, p) && Opens(cfg, s, cfg.requests[w], p)
    ensures var r, side := cfg.requests[w], Db(cfg, s);
            Db(cfg, Opening(cfg, s, w, p))
            == side.(editing := side.editing[w := ViewOf(r, p)])
  {
    var c := Prepared(cfg.requests[w].creation, cfg.requests[w].means).value;
    RunSnoc(s.history, W.Create(w, c, p.paymentId, p.eventId, p.now), cfg.debug);
    CreateHolds(Db(cfg, s), w, c, p.paymentId, p.eventId, p.now, cfg.debug);
  }

  /** Where the command leaves its worker, the tables and the list of stored payments. */
  ghost predicate Commanded(cfg: Config, s: Service, w: nat, p: Plan, made: Result<Tables, ServiceError>, t: Service)
    requires w in cfg.requests
  {
    && SameKey(s, t, w) && t.phases[w] == Executed(OutcomeOf(made, cfg.requests[w], p.paymentId))
    && Db(cfg, t).db == (if made.Ok? then made.value else Db(cfg, s).db)
    && t.executed == s.executed + if made.Ok? then [p.paymentId] else []
  }

  lemma SaveCommits(side: W.System, w: nat, stamp: Stamp, debug: bool)
    requires w in side.editing && |side.editing[w].uncommitted| == 1
    ensures var made := Persist(side.db, debug, side.editing[w], stamp);
            W.Next(side, W.Save(w, [stamp]), debug).db == if made.Ok? then made.value else side.db
  {
  }

  lemma AppendRuns(cfg: Config, s: Service, w: nat, p: Plan, view: Aggregate)
    requires Ready(cfg, s, w, p) && s.phases[w] == Opened(p.paymentId)
    requires w in Db(cfg, s).editing && Db(cfg, s).editing[w] == view && |view.uncommitted| == 1
    ensures Commanded(cfg, s, w, p, Persist(Db(cfg, s).db, cfg.debug, view, p.stamp),
                      WorkerStep(cfg, s, w, AppendPayment([p.stamp])))
  {
    assert s.executed + [] == s.executed;
    RunSnoc(s.history, W.Save(w, [p.stamp]), cfg.debug);
    SaveCommits(Db(cfg, s), w, p.stamp, cfg.debug);
  }

  lemma OpenedCommandRuns(cfg: Config, s: Service, w: nat, p: Plan)
    requires Ready(cfg, s, w, p) && s.phases[w].Holding? && Opens(cfg, s, cfg.requests[w], p)
    ensures Commanded(cfg, s, w, p, Persist(Db(cfg, s).db, cfg.debug, ViewOf(cfg.requests[w], p), p.stamp),
                      CallAll(cfg, s, w, CommandCalls(p)))
  {
    var r, calls, t := cfg.requests[w], CommandCalls(p), Opening(cfg, s, w, p);
    OpenCallOpens(cfg, s, w, p);
    OpeningHolds(cfg, s, w, p);
    AppendRuns(cfg, t, w, p, ViewOf(r, p));
    TwoCalls(cfg, s, w, calls[0], calls[1], t, WorkerStep(cfg, t, w, calls[1]));
  }

  lemma CommandRuns(cfg: Config, s: Service, w: nat, p: Plan)
    requires Ready(cfg, s, w, p) && s.phases[w].Holding?
    ensures var r := cfg.requests[w];
            Commanded(cfg, s, w, p,
                      CreatePayment(Db(cfg, s).db, cfg.debug, r.creation, r.means, p.paymentId, p.eventId, p.now, p.stamp),
                      CallAll(cfg, s, w, CommandCalls(p)))
  {
    assert s.executed + [] == s.executed;
    if Opens(cfg, s, cfg.requests[w], p) {
      OpenedCommandRuns(cfg, s, w, p);
    } else {
      RefusedCommandRuns(cfg, s, w, p);
    }
  }

  lemma RecordRuns(cfg: Config, s: Service, w: nat, p: Plan, o: Outcome)
    requires Ready(cfg, s, w, p) && s.phases[w] == Executed(o) && s.row.Some?
    requires RecordOnce(s.row, cfg.requests[w], o, p.now).Some?
    ensures var t := CallAll(cfg, s, w, RECORD_CALLS);
            && w in t.phases && t.phases[w] == Done(Recorded) && t.history == s.history
            && t.row == RecordOnce(s.row, cfg.requests[w], o, p.now).value
  {
    var image := PrepareRecord(s.row, LeaseProtocol.StatusFor(o), ResponseFor(cfg.requests[w], o), p.now).value;
    var s1 := At(s, w, Recording(o, image));
    TwoCalls(cfg, s, w, ReadRecord, WriteRecord(true), s1, WorkerStep(cfg, s1, w, WriteRecord(true)));
  }

  /** From the claim on: the command and the record. */
  lemma HoldingRuns(cfg: Config, s: Service, w: nat, p: Plan)
    requires Ready(cfg, s, w, p) && s.phases[w].Holding?
    requires s.row.Some? && s.row.value.status == Pending && p.now < s.row.value.expiresAt
    ensures var r := cfg.requests[w];
            var made := CreatePayment(Db(cfg, s).db, cfg.debug, r.creation, r.means, p.paymentId, p.eventId, p.now, p.stamp);
            var t := CallAll(cfg, s, w, CommandCalls(p) + RECORD_CALLS);
            && w in t.phases && t.phases[w] == Done(Recorded)
            && (Recorded, t.row) == RecordOutcome(s.row, r, OutcomeOf(made, r, p.paymentId), p.now)
            && Db(cfg, t).db == if made.Ok? then made.value else Db(cfg, s).db
  {
    var r := cfg.requests[w];
    var made := CreatePayment(Db(cfg, s).db, cfg.debug, r.creation, r.means, p.paymentId, p.eventId, p.now, p.stamp);
    CallsAppend(cfg, s, w, CommandCalls(p), RECORD_CALLS);
    CommandRuns(cfg, s, w, p);
    RecordRuns(cfg, CallAll(cfg, s, w, CommandCalls(p)), w, p, OutcomeOf(made, r, p.paymentId));
  }

  lemma {:induction false} DoneStaysDone(cfg: Config, s: Service, w: nat, calls: seq<Call>)
    requires w in s.phases && w in cfg.requests && s.phases[w].Done?
    ensures CallAll(cfg, s, w, calls) == s
    decreases |calls|
  {
    if calls != [] {
      assert At(s, w, s.phases[w]) == s;
      DoneStaysDone(cfg, s, w, calls[1..]);
    }
  }

  /**
    The executor runs the protocol: by itself, a request's database calls take the service exactly where the method
    takes the row and the tables, and end with its answer.
   */
  lemma ExecutionIsARun(cfg: Config, s: Service, w: nat, p: Plan)
    requires Ready(cfg, s, w, p) && s.phases[w].Start? && (s.row.Some? ==> RowOk(s.row.value))
    ensures var r := cfg.requests[w];
            var a := Execute(Db(cfg, s).db, s.row, cfg.debug, r, p);
            var t := CallAll(cfg, s, w, ClaimCalls(p) + CommandCalls(p) + RECORD_CALLS);
            && t.row == a.row && Db(cfg, t).db == a.tables && w in t.phases && t.phases[w] == Done(a.answer)
  {
    var r := cfg.requests[w];
    var s1, rest := Claimed(cfg, s, w, p), CommandCalls(p) + RECORD_CALLS;
    ClaimRuns(cfg, s, w, p);
    ClaimAlone(s.row, r, p.now, p.rid);
    CallsAppend(cfg, s, w, ClaimCalls(p), rest);
    assert ClaimCalls(p) + CommandCalls(p) + RECORD_CALLS == ClaimCalls(p) + rest;
    if s1.phases[w].Done? {
      DoneStaysDone(cfg, s1, w, rest);
    } else {
      HoldingRuns(cfg, s1, w, p);
    }
  }
}
