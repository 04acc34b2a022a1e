/**
  The idempotency lease protocol of one (key, user): any number of workers run the executor's sequence claim, execute,
  record, one database call at a time, among administrative calls and the rest of the write side.
 */
module LeaseProtocol {
  import opened Basics
  import opened Payments
  import opened Streams
  import opened Storage
  import opened EventStore
  import W = WriteSide
  import opened CommandService
  import opened Idempotency

  /** One request with this idempotency key: its payload's fingerprint, its lock owner, what it would create and how. */
  datatype Request = Request(fingerprint: string, locker: string, creation: Creation, means: string)

  datatype Config = Config(requests: map<nat, Request>, debug: bool)

  datatype Outcome = Paid(paymentId: Id) | Failure(error: string)

  datatype Answer = Recorded | Replayed(response: Response) | Rejected(reason: Reason) | Errored | GaveUp

  /** Where a worker stands between two database calls. */
  datatype Phase =
    | Start
    | Looked
    | Claiming(t0: Time)
    | Saw(t0: Time, seen: Option<KeyRow>)
    | Holding
    | Opened(paymentId: Id)
    | Executed(outcome: Outcome)
    | Recording(outcome: Outcome, image: KeyRow)
    | Crashed
    | Done(answer: Answer)

  datatype AdminCall = AdminCall(op: AdminOp, t0: Time, seen: Option<KeyRow>)

  /**
    history: the write-side steps so far; the database is Run(history). acquired and executed record which workers
    acquired the key and which payments they stored.
   */
  datatype Service = Service(
    history: seq<W.Step>, row: Option<KeyRow>, now: Time,
    phases: map<nat, Phase>, admins: map<nat, AdminCall>,
    acquired: seq<nat>, executed: seq<Id>)

  /** A worker's next database call; Fault is a call that raises without effect. */
  datatype Call =
    | Look
    | BeginClaim
    | ReadClaim
    | WriteClaim(m: Time, rid: Id)
    | OpenPayment(paymentId: Id, eventId: Id, at: Time)
    | AppendPayment(stamps: seq<Stamp>)
    | ReadRecord
    | WriteRecord(reply: bool)
    | Fault
    | Crash

  datatype Step =
    | Do(w: nat, call: Call)
    | Tick(elapsed: nat)
    | Side(step: W.Step)
    | AdminCreate(rid: Id, fingerprint: string, expiresAt: Time)
    | AdminRead(k: nat, op: AdminOp, t0: Time)
    | AdminWrite(k: nat, at: Time)
    | Release
    | Delete
    | Cleanup(cutoff: Time)

  function Begin(cfg: Config, now: Time): Service {
    Service([], None, now, map w | w in cfg.requests :: Start, map[], [], [])
  }

  function Db(cfg: Config, s: Service): W.System {
    W.Run(s.history, cfg.debug)
  }

  function At(s: Service, w: nat, p: Phase): Service {
    s.(phases := s.phases[w := p])
  }

  /** process_request's fast path: a finished, unexpired key is replayed whatever the fingerprint. */
  function AfterLook(s: Service): Phase {
    if s.row.Some? && ReplayResponse(s.row.value, s.now).Some?
    then Done(Replayed(ReplayResponse(s.row.value, s.now).value))
    else Looked
  }

  /** What process_request makes of a claim's outcome. */
  function AfterClaim(outcome: ClaimOutcome): Phase {
    match outcome
    case Acquired(_) => Holding
    case Replay(response) => Done(Replayed(response))
    case Conflict(reason) => Done(Rejected(reason))
    case ClaimRaised => Done(Errored)
  }

  function ClaimBy(r: Request, row: Option<KeyRow>, p: Phase, m: Time, rid: Id): (ClaimOutcome, Option<KeyRow>)
    requires p.Saw?
  {
    FinishClaim(row, p.seen, r.fingerprint, r.locker, p.t0, m, rid)
  }

  function WriteClaimStep(cfg: Config, s: Service, w: nat, m: Time, rid: Id): Service
    requires w in s.phases && s.phases[w].Saw? && w in cfg.requests
  {
    if !(s.phases[w].t0 <= m <= s.now) then s
    else
      var (outcome, row) := ClaimBy(cfg.requests[w], s.row, s.phases[w], m, rid);
      At(s, w, AfterClaim(outcome)).(row := row, acquired := s.acquired + if outcome.Acquired? then [w] else [])
  }

  /** The command's first half: its checks, the refund check's load and the factory, in client w's own memory. */
  function OpenStep(cfg: Config, s: Service, w: nat, paymentId: Id, eventId: Id, at: Time): Service
    requires w in cfg.requests
  {
    match Prepared(cfg.requests[w].creation, cfg.requests[w].means)
    case Err(_) => At(s, w, Executed(Failure("command")))
    case Ok(creation) =>
      if W.RefundCheck(Db(cfg, s).db.eventStore, creation, at).Some? || Open(creation, paymentId, eventId, at).Err?
      then At(s, w, Executed(Failure("command")))
      else At(s, w, Opened(paymentId)).(history := s.history + [W.Create(w, creation, paymentId, eventId, at)])
  }

  /** After the append the view is built; a refund's payload names no payment method, which raises. */
  function AfterAppend(r: Request, paymentId: Id): Outcome {
    if r.creation.CreateRefund? then Failure("view") else Paid(paymentId)
  }

  /** The command's second half, the append. */
  function AppendStep(cfg: Config, s: Service, w: nat, stamps: seq<Stamp>): Service
    requires w in s.phases && s.phases[w].Opened? && w in cfg.requests
  {
    var side := Db(cfg, s);
    var p := s.phases[w].paymentId;
    if w !in side.editing || |stamps| != |side.editing[w].uncommitted| then s
    else
      var t := s.(history := s.history + [W.Save(w, stamps)]);
      if Commit(side.db, cfg.debug, side.editing[w], stamps).Err? then At(t, w, Executed(Failure("append")))
      else At(t, w, Executed(AfterAppend(cfg.requests[w], p))).(executed := s.executed + [p])
  }

  function StatusFor(o: Outcome): KeyStatus {
    if o.Paid? then Completed else KeyStatus.Failed
  }

  function ResponseFor(r: Request, o: Outcome): Response {
    match o
    case Paid(p) => Response(200, PaymentBody(p, r.creation.amount, r.creation.currency))
    case Failure(error) => Response(400, ErrorBody(error))
  }

  /** An exception while recording: a success falls into the failure handler, a failure is swallowed. */
  function AfterError(o: Outcome): Phase {
    if o.Paid? then Executed(Failure("record")) else Done(GaveUp)
  }

  function AfterReadRecord(r: Request, s: Service, o: Outcome): Phase {
    match PrepareRecord(s.row, StatusFor(o), ResponseFor(r, o), s.now)
    case Some(image) => Recording(o, image)
    case None => AfterError(o)
  }

  /** update(); without a reply the write commits and the call raises all the same. */
  function WriteRecordStep(s: Service, w: nat, reply: bool): Service
    requires w in s.phases && s.phases[w].Recording?
  {
    var p := s.phases[w];
    if s.row.None? then At(s, w, AfterError(p.outcome))
    else At(s, w, if reply then Done(Recorded) else AfterError(p.outcome)).(row := WriteImage(s.row, p.image))
  }

  function AfterFault(p: Phase): Phase {
    match p
    case Holding => Executed(Failure("command"))
    case Opened(_) => Executed(Failure("append"))
    case Executed(o) => AfterError(o)
    case Recording(o, _) => AfterError(o)
    case Crashed => p
    case Done(_) => p
    case _ => Done(Errored)
  }

  /** The calls that only read, or fail: they move worker w and nothing else. */
  function AfterRead(cfg: Config, s: Service, w: nat, call: Call): Phase
    requires w in s.phases && w in cfg.requests
  {
    var p := s.phases[w];
    match call
    case Look => if p.Start? then AfterLook(s) else p
    case BeginClaim => if p.Looked? then Claiming(s.now) else p
    case ReadClaim => if p.Claiming? then Saw(p.t0, s.row) else p
    case ReadRecord => if p.Executed? then AfterReadRecord(cfg.requests[w], s, p.outcome) else p
    case Fault => AfterFault(p)
    case Crash => if p.Done? then p else Crashed
    case _ => p
  }

  /** The client whose memory a write-side step changes. */
  function ClientOf(step: W.Step): Option<nat> {
    match step
    case Load(c, _, _) => Some(c)
    case Create(c, _, _, _, _) => Some(c)
    case IssueTo(c, _, _, _) => Some(c)
    case Save(c, _) => Some(c)
    case Drop(c) => Some(c)
    case Rebuild(_) => None
    case Purge(_) => None
    case Touch(_, _, _, _, _) => None
  }

  function CallStep(cfg: Config, s: Service, w: nat, call: Call): Service
    requires w in s.phases && w in cfg.requests
  {
    var p := s.phases[w];
    match call
    case WriteClaim(m, rid) => if p.Saw? then WriteClaimStep(cfg, s, w, m, rid) else s
    case OpenPayment(paymentId, eventId, at) => if p.Holding? then OpenStep(cfg, s, w, paymentId, eventId, at) else s
    case AppendPayment(stamps) => if p.Opened? then AppendStep(cfg, s, w, stamps) else s
    case WriteRecord(reply) => if p.Recording? then WriteRecordStep(s, w, reply) else s
    case _ => At(s, w, AfterRead(cfg, s, w, call))
  }

  function WorkerStep(cfg: Config, s: Service, w: nat, call: Call): Service {
    if w in s.phases && w in cfg.requests then CallStep(cfg, s, w, call) else s
  }

  function Next(cfg: Config, s: Service, step: Step): Service {
    match step
    case Tick(elapsed) => s.(now := s.now + elapsed)
    case Side(side) =>
      var c := ClientOf(side);
      if c.Some? && c.value in cfg.requests then s else s.(history := s.history + [side])
    case AdminCreate(rid, fingerprint, expiresAt) =>
      if s.row.Some? || expiresAt <= s.now then s else s.(row := Some(NewKey(rid, fingerprint, expiresAt)))
    case AdminRead(k, op, t0) => if t0 > s.now then s else s.(admins := s.admins[k := AdminCall(op, t0, s.row)])
    case AdminWrite(k, at) =>
      if k !in s.admins || !(s.admins[k].t0 <= at <= s.now) then s
      else s.(row := AdminEffect(s.row, s.admins[k].op, s.admins[k].seen, s.admins[k].t0, at), admins := s.admins - {k})
    case Release => s.(row := ReleaseStuck(s.row, s.now))
    case Delete => s.(row := None)
    case Cleanup(cutoff) => s.(row := DeleteExpired(s.row, cutoff))
    case Do(w, call) => WorkerStep(cfg, s, w, call)
  }

  function Play(cfg: Config, now: Time, steps: seq<Step>): Service {
    if steps == [] then Begin(cfg, now)
    else Next(cfg, Play(cfg, now, steps[..|steps| - 1]), steps[|steps| - 1])
  }

  // ---------- the row invariant ----------

  ghost predicate RowOk(r: KeyRow) {
    && (r.status != Pending ==> r.response.Some? && r.lockedUntil.None? && r.lockedBy.None?)
    && (r.status == Pending ==> r.response.None?)
    && (r.lockedUntil.Some? <==> r.lockedBy.Some?)
  }

  ghost predicate Finished(r: KeyRow) {
    r.status != Pending && RowOk(r)
  }

  ghost predicate RowsOk(s: Service) {
    && (s.row.Some? ==> RowOk(s.row.value))
    && forall w :: w in s.phases && s.phases[w].Recording? ==> Finished(s.phases[w].image)
  }

  lemma LockWriteKeepsRowOk(row: Option<KeyRow>, rid: Id, until: Option<Time>, holder: Option<string>)
    requires row.Some? ==> RowOk(row.value)
    requires until.Some? <==> holder.Some?
    ensures var (w, after) := WriteLock(row, rid, until, holder);
            && (after.Some? ==> RowOk(after.value)) && (after.Some? <==> row.Some?)
            && (row.Some? ==> after.value.rid == row.value.rid && after.value.status == row.value.status
                              && after.value.response == row.value.response)
  {
  }

  lemma ClaimKeepsRowOk(row: Option<KeyRow>, seen: Option<KeyRow>, fingerprint: string, locker: string,
                        t0: Time, m: Time, rid: Id)
    requires row.Some? ==> RowOk(row.value)
    ensures var (outcome, after) := FinishClaim(row, seen, fingerprint, locker, t0, m, rid);
            && (after.Some? ==> RowOk(after.value))
            && (row.Some? ==> after.Some? && after.value.rid == row.value.rid
                              && after.value.status == row.value.status && after.value.response == row.value.response)
  {
    if seen.Some? && Decide(seen.value, fingerprint, t0).Steal? {
      LockWriteKeepsRowOk(row, seen.value.rid, Some(t0 + LEASE_SECONDS * SECOND), Some(locker));
    }
  }

  lemma AdminKeepsRowOk(row: Option<KeyRow>, call: AdminCall, at: Time)
    requires row.Some? ==> RowOk(row.value)
    ensures var after := AdminEffect(row, call.op, call.seen, call.t0, at);
            && (after.Some? ==> RowOk(after.value)) && (after.Some? <==> row.Some?)
            && (row.Some? ==> after.value.rid == row.value.rid && after.value.status == row.value.status
                              && after.value.response == row.value.response)
  {
    if call.seen.Some? {
      match call.op {
        case LockOp(locker, seconds) =>
          LockWriteKeepsRowOk(row, call.seen.value.rid, Some(call.t0 + seconds * SECOND), Some(locker));
        case _ => LockWriteKeepsRowOk(row, call.seen.value.rid, None, None);
      }
    }
  }

  /** The same row, no less finished than before. */
  ghost predicate Continues(before: Option<KeyRow>, after: Option<KeyRow>) {
    before.Some? ==>
      after.Some? && after.value.rid == before.value.rid
      && (before.value.status != Pending ==> after.value.status != Pending)
  }

  lemma WriteClaimKeepsRowsOk(cfg: Config, s: Service, w: nat, m: Time, rid: Id)
    requires RowsOk(s) && w in s.phases && s.phases[w].Saw? && w in cfg.requests
    ensures RowsOk(WriteClaimStep(cfg, s, w, m, rid)) && Continues(s.row, WriteClaimStep(cfg, s, w, m, rid).row)
  {
    ClaimKeepsRowOk(s.row, s.phases[w].seen, cfg.requests[w].fingerprint, cfg.requests[w].locker,
                    s.phases[w].t0, m, rid);
  }

  lemma PhaseChangeKeepsRowsOk(s: Service, t: Service, w: nat, p: Phase)
    requires RowsOk(s) && t.row == s.row && t.phases == s.phases[w := p]
    requires p.Recording? ==> Finished(p.image)
    ensures RowsOk(t)
  {
  }

  lemma ReadKeepsRowsOk(cfg: Config, s: Service, w: nat, call: Call)
    requires RowsOk(s) && w in s.phases && w in cfg.requests
    ensures RowsOk(At(s, w, AfterRead(cfg, s, w, call)))
  {
    PhaseChangeKeepsRowsOk(s, At(s, w, AfterRead(cfg, s, w, call)), w, AfterRead(cfg, s, w, call));
  }

  lemma ExecutionKeepsRowsOk(cfg: Config, s: Service, w: nat, paymentId: Id, eventId: Id, at: Time,
                             stamps: seq<Stamp>)
    requires RowsOk(s) && w in s.phases && w in cfg.requests
    ensures s.phases[w].Holding? ==>
              var t := OpenStep(cfg, s, w, paymentId, eventId, at); RowsOk(t) && t.row == s.row
    ensures s.phases[w].Opened? ==>
              var t := AppendStep(cfg, s, w, stamps); RowsOk(t) && t.row == s.row
  {
  }

  lemma WriteRecordKeepsRowsOk(s: Service, w: nat, reply: bool)
    requires RowsOk(s) && w in s.phases && s.phases[w].Recording?
    ensures RowsOk(WriteRecordStep(s, w, reply)) && Continues(s.row, WriteRecordStep(s, w, reply).row)
  {
  }

  lemma WorkerKeepsRowsOk(cfg: Config, s: Service, w: nat, call: Call)
    requires RowsOk(s)
    ensures RowsOk(WorkerStep(cfg, s, w, call)) && Continues(s.row, WorkerStep(cfg, s, w, call).row)
  {
    if w in s.phases && w in cfg.requests {
      match call {
        case WriteClaim(m, rid) => if s.phases[w].Saw? { WriteClaimKeepsRowsOk(cfg, s, w, m, rid); }
        case OpenPayment(id, e, at) => ExecutionKeepsRowsOk(cfg, s, w, id, e, at, []);
        case AppendPayment(stamps) => ExecutionKeepsRowsOk(cfg, s, w, 0, 0, 0, stamps);
        case WriteRecord(reply) => if s.phases[w].Recording? { WriteRecordKeepsRowsOk(s, w, reply); }
        case _ => ReadKeepsRowsOk(cfg, s, w, call);
      }
    }
  }

  lemma StepKeepsRowsOk(cfg: Config, s: Service, step: Step)
    requires RowsOk(s)
    ensures RowsOk(Next(cfg, s, step))
  {
    match step {
      case Tick(_) =>
      case Side(_) =>
      case AdminCreate(_, _, _) =>
      case AdminRead(_, _, _) =>
      case AdminWrite(k, at) => if k in s.admins { AdminKeepsRowOk(s.row, s.admins[k], at); }
      case Release =>
      case Delete =>
      case Cleanup(_) =>
      case Do(w, call) => WorkerKeepsRowsOk(cfg, s, w, call);
    }
  }

  /**
    Row invariant, under every interleaving of workers, administrators and crashes: a finished row has a response and
    no lock, a pending one has no response, and lock time and lock owner are set together.
   */
  lemma {:induction false} EveryRowIsOk(cfg: Config, now: Time, steps: seq<Step>)
    ensures RowsOk(Play(cfg, now, steps))
  {
    if steps != [] {
      EveryRowIsOk(cfg, now, steps[..|steps| - 1]);
      StepKeepsRowsOk(cfg, Play(cfg, now, steps[..|steps| - 1]), steps[|steps| - 1]);
    }
  }

  /** A finished row never returns to pending: after any step it is finished, or deleted. */
  lemma FinishedRowsStayFinished(cfg: Config, now: Time, steps: seq<Step>, step: Step)
    requires Play(cfg, now, steps).row.Some? && Play(cfg, now, steps).row.value.status != Pending
    ensures var before, after := Play(cfg, now, steps).row, Play(cfg, now, steps + [step]).row;
            after.Some? ==> after.value.rid == before.value.rid && after.value.status != Pending
  {
    var s := Play(cfg, now, steps);
    assert (steps + [step])[..|steps|] == steps;
    EveryRowIsOk(cfg, now, steps);
    match step {
      case Tick(_) =>
      case Side(_) =>
      case AdminCreate(_, _, _) =>
      case AdminRead(_, _, _) =>
      case AdminWrite(k, at) => if k in s.admins { AdminKeepsRowOk(s.row, s.admins[k], at); }
      case Release =>
      case Delete =>
      case Cleanup(_) =>
      case Do(w, call) => WorkerKeepsRowsOk(cfg, s, w, call);
    }
  }

  /** A lease-steal whose write comes after the row was finished is refused by the check constraint: nobody acquires. */
  lemma LateStealIsRefused(cfg: Config, s: Service, w: nat, m: Time, rid: Id)
    requires RowsOk(s) && s.row.Some? && s.row.value.status != Pending
    requires w in s.phases && w in cfg.requests && s.phases[w].Saw? && s.phases[w].t0 <= m <= s.now
    requires s.phases[w].seen.Some? && Decide(s.phases[w].seen.value, cfg.requests[w].fingerprint, s.phases[w].t0).Steal?
    ensures Next(cfg, s, Do(w, WriteClaim(m, rid))) == At(s, w, Done(Errored))
  {
  }

  /**
    A key created by hand is pending and without a lock; an existing key, or an expiry that is past, leaves all as it
    was.
   */
  lemma CreateAnswers(cfg: Config, s: Service, rid: Id, fingerprint: string, expiresAt: Time)
    ensures Next(cfg, s, AdminCreate(rid, fingerprint, expiresAt))
         == if s.row.None? && s.now < expiresAt
            then s.(row := Some(KeyRow(rid, fingerprint, expiresAt, Pending, None, None, None)))
            else s
  {
  }

  // ---------- durable success ----------

  ghost predicate Stored(cfg: Config, s: Service, p: Id) {
    RowsOf(Db(cfg, s).db.eventStore, p) != []
  }

  ghost predicate NamesStored(cfg: Config, s: Service, r: KeyRow) {
    r.status == Completed ==>
      r.response.Some? && r.response.value.body.PaymentBody? && Stored(cfg, s, r.response.value.body.paymentId)
  }

  ghost predicate PhaseNamesStored(cfg: Config, s: Service, p: Phase) {
    match p
    case Executed(Paid(id)) => Stored(cfg, s, id)
    case Recording(o, image) => (o.Paid? ==> Stored(cfg, s, o.paymentId)) && NamesStored(cfg, s, image)
    case _ => true
  }

  ghost predicate HoldsItsPayment(cfg: Config, s: Service, w: nat) {
    w in s.phases && s.phases[w].Opened? ==>
      && w in Db(cfg, s).editing && Db(cfg, s).editing[w].uncommitted != []
      && Db(cfg, s).editing[w].core.paymentId == s.phases[w].paymentId
  }

  ghost predicate Durable(cfg: Config, s: Service) {
    && (s.row.Some? ==> NamesStored(cfg, s, s.row.value))
    && (forall w :: w in s.phases ==> PhaseNamesStored(cfg, s, s.phases[w]))
    && (forall w :: w in cfg.requests ==> HoldsItsPayment(cfg, s, w))
    && s.phases.Keys == cfg.requests.Keys
  }

  lemma RunSnoc(history: seq<W.Step>, step: W.Step, debug: bool)
    ensures W.Run(history + [step], debug) == W.Next(W.Run(history, debug), step, debug)
  {
    assert (history + [step])[..|history|] == history;
  }

  lemma CommitOnlyGrows(t: Tables, a: Aggregate, stamps: seq<Stamp>, debug: bool, p: Id)
    requires |stamps| == |a.uncommitted| && Commit(t, debug, a, stamps).Ok?
    ensures var log := Commit(t, debug, a, stamps).value.eventStore;
            && (RowsOf(t.eventStore, p) != [] ==> RowsOf(log, p) != [])
            && (a.uncommitted != [] ==> RowsOf(log, a.core.paymentId) != [])
  {
    var id, base := a.core.paymentId, a.version - |a.uncommitted|;
    AppendShape(t, debug, id, base, a.uncommitted, stamps);
    RowsOfAppended(t.eventStore, NewRows(id, base, a.uncommitted, stamps), id, p);
    RowsOfAppended(t.eventStore, NewRows(id, base, a.uncommitted, stamps), id, id);
  }

  lemma SaveOnlyGrows(side: W.System, c: nat, stamps: seq<Stamp>, debug: bool, p: Id)
    requires c in side.editing && |stamps| == |side.editing[c].uncommitted|
    ensures RowsOf(side.db.eventStore, p) != [] ==> RowsOf(W.SaveStep(side, c, stamps, debug).db.eventStore, p) != []
    ensures var a := side.editing[c];
            Commit(side.db, debug, a, stamps).Ok? && a.uncommitted != [] ==>
              RowsOf(W.SaveStep(side, c, stamps, debug).db.eventStore, a.core.paymentId) != []
  {
    var r := Commit(side.db, debug, side.editing[c], stamps);
    if r.Ok? {
      CommitOnlyGrows(side.db, side.editing[c], stamps, debug, p);
      assert W.SaveStep(side, c, stamps, debug).db == r.value;
    }
  }

  lemma OnlySavesWriteTheLog(side: W.System, step: W.Step, debug: bool)
    requires !step.Save?
    ensures W.Next(side, step, debug).db.eventStore == side.db.eventStore
  {
  }

  /** No write-side step takes a row out of the log. */
  lemma LogOnlyGrows(side: W.System, step: W.Step, debug: bool, p: Id)
    ensures RowsOf(side.db.eventStore, p) != [] ==> RowsOf(W.Next(side, step, debug).db.eventStore, p) != []
  {
    if !step.Save? {
      OnlySavesWriteTheLog(side, step, debug);
    } else if step.c in side.editing && |step.stamps| == |side.editing[step.c].uncommitted| {
      SaveOnlyGrows(side, step.c, step.stamps, debug, p);
    }
  }

  /** No write-side step touches the memory of a client that is not its own. */
  lemma OthersMemoryIsKept(side: W.System, step: W.Step, debug: bool, w: nat)
    requires ClientOf(step) != Some(w)
    ensures w in side.editing <==> w in W.Next(side, step, debug).editing
    ensures w in side.editing ==> W.Next(side, step, debug).editing[w] == side.editing[w]
  {
  }

  lemma LongerHistoryKeepsStored(cfg: Config, s: Service, step: W.Step, t: Service, p: Id)
    requires t.history == s.history + [step] && Stored(cfg, s, p)
    ensures Stored(cfg, t, p)
  {
    RunSnoc(s.history, step, cfg.debug);
    LogOnlyGrows(Db(cfg, s), step, cfg.debug, p);
  }

  /** A step of the write side that is not worker w's own leaves everything durable. */
  lemma HistoryKeepsDurable(cfg: Config, s: Service, step: W.Step, t: Service, own: Option<nat>)
    requires Durable(cfg, s) && t.history == s.history + [step] && ClientOf(step) == own
    requires t.row == s.row && t.phases.Keys == s.phases.Keys
    requires forall w :: w in s.phases && Some(w) != own ==> t.phases[w] == s.phases[w]
    requires own.Some? && own.value in s.phases ==>
               PhaseNamesStored(cfg, t, t.phases[own.value]) && HoldsItsPayment(cfg, t, own.value)
    ensures Durable(cfg, t)
  {
    forall p: Id | Stored(cfg, s, p) ensures Stored(cfg, t, p) {
      LongerHistoryKeepsStored(cfg, s, step, t, p);
    }
    forall w | w in t.phases ensures PhaseNamesStored(cfg, t, t.phases[w]) {
      assert Some(w) != own ==> PhaseNamesStored(cfg, s, s.phases[w]);
    }
    forall w | w in cfg.requests ensures HoldsItsPayment(cfg, t, w) {
      if Some(w) != own {
        assert HoldsItsPayment(cfg, s, w);
        RunSnoc(s.history, step, cfg.debug);
        OthersMemoryIsKept(Db(cfg, s), step, cfg.debug, w);
      }
    }
  }

  lemma OpeningKeepsDurable(cfg: Config, s: Service, w: nat, creation: Creation, paymentId: Id, eventId: Id, at: Time)
    requires Durable(cfg, s) && w in cfg.requests
    requires W.RefundCheck(Db(cfg, s).db.eventStore, creation, at).None? && Open(creation, paymentId, eventId, at).Ok?
    ensures Durable(cfg, At(s, w, Opened(paymentId)).(
                           history := s.history + [W.Create(w, creation, paymentId, eventId, at)]))
  {
    var step := W.Create(w, creation, paymentId, eventId, at);
    var t := At(s, w, Opened(paymentId)).(history := s.history + [step]);
    RunSnoc(s.history, step, cfg.debug);
    OpenWritesGenesis(creation, paymentId, eventId, at);
    assert HoldsItsPayment(cfg, t, w);
    HistoryKeepsDurable(cfg, s, step, t, Some(w));
  }

  lemma OpenKeepsDurable(cfg: Config, s: Service, w: nat, paymentId: Id, eventId: Id, at: Time)
    requires Durable(cfg, s) && w in cfg.requests && s.phases[w].Holding?
    ensures Durable(cfg, OpenStep(cfg, s, w, paymentId, eventId, at))
  {
    var t := OpenStep(cfg, s, w, paymentId, eventId, at);
    if t.phases[w].Opened? {
      OpeningKeepsDurable(cfg, s, w, Prepared(cfg.requests[w].creation, cfg.requests[w].means).value,
                          paymentId, eventId, at);
    } else {
      PhaseChangeKeepsDurable(cfg, s, w, t.phases[w]);
    }
  }

  lemma AppendKeepsDurable(cfg: Config, s: Service, w: nat, stamps: seq<Stamp>)
    requires Durable(cfg, s) && w in cfg.requests && s.phases[w].Opened?
    ensures Durable(cfg, AppendStep(cfg, s, w, stamps))
  {
    var side, t := Db(cfg, s), AppendStep(cfg, s, w, stamps);
    assert HoldsItsPayment(cfg, s, w);
    if |stamps| == |side.editing[w].uncommitted| {
      var step := W.Save(w, stamps);
      RunSnoc(s.history, step, cfg.debug);
      SaveOnlyGrows(side, w, stamps, cfg.debug, 0);
      assert PhaseNamesStored(cfg, t, t.phases[w]);
      HistoryKeepsDurable(cfg, s, step, t, Some(w));
    }
  }

  lemma PhaseChangeKeepsDurable(cfg: Config, s: Service, w: nat, p: Phase)
    requires Durable(cfg, s) && w in cfg.requests
    requires PhaseNamesStored(cfg, s, p) && !p.Opened?
    ensures Durable(cfg, At(s, w, p))
  {
    var t := At(s, w, p);
    assert Db(cfg, t) == Db(cfg, s);
    forall v | v in t.phases ensures PhaseNamesStored(cfg, t, t.phases[v]) {
      assert v != w ==> PhaseNamesStored(cfg, s, s.phases[v]);
    }
    forall v | v in cfg.requests ensures HoldsItsPayment(cfg, t, v) {
      assert HoldsItsPayment(cfg, s, v);
    }
  }

  lemma RowChangeKeepsDurable(cfg: Config, s: Service, row: Option<KeyRow>)
    requires Durable(cfg, s) && (row.Some? ==> NamesStored(cfg, s, row.value))
    ensures Durable(cfg, s.(row := row))
  {
    var t := s.(row := row);
    assert Db(cfg, t) == Db(cfg, s);
    forall v | v in t.phases ensures PhaseNamesStored(cfg, t, t.phases[v]) {
      assert PhaseNamesStored(cfg, s, s.phases[v]);
    }
    forall v | v in cfg.requests ensures HoldsItsPayment(cfg, t, v) {
      assert HoldsItsPayment(cfg, s, v);
    }
  }

  lemma BookkeepingKeepsDurable(cfg: Config, s: Service, t: Service)
    requires Durable(cfg, s)
    requires t.history == s.history && t.row == s.row && t.phases == s.phases
    ensures Durable(cfg, t)
  {
    assert Db(cfg, t) == Db(cfg, s);
    forall v | v in t.phases ensures PhaseNamesStored(cfg, t, t.phases[v]) {
      assert PhaseNamesStored(cfg, s, s.phases[v]);
    }
    forall v | v in cfg.requests ensures HoldsItsPayment(cfg, t, v) {
      assert HoldsItsPayment(cfg, s, v);
    }
  }

  lemma ClaimedRowNamesStored(cfg: Config, s: Service, w: nat, m: Time, rid: Id)
    requires Durable(cfg, s) && RowsOk(s) && w in cfg.requests && s.phases[w].Saw?
    ensures var row := ClaimBy(cfg.requests[w], s.row, s.phases[w], m, rid).1;
            row.Some? ==> NamesStored(cfg, s, row.value)
  {
    var p, r := s.phases[w], cfg.requests[w];
    ClaimKeepsRowOk(s.row, p.seen, r.fingerprint, r.locker, p.t0, m, rid);
  }

  lemma WriteClaimKeepsDurable(cfg: Config, s: Service, w: nat, m: Time, rid: Id)
    requires Durable(cfg, s) && RowsOk(s) && w in cfg.requests && s.phases[w].Saw?
    ensures Durable(cfg, WriteClaimStep(cfg, s, w, m, rid))
  {
    if s.phases[w].t0 <= m <= s.now {
      ClaimedRowNamesStored(cfg, s, w, m, rid);
      var claim := ClaimBy(cfg.requests[w], s.row, s.phases[w], m, rid);
      RowChangeKeepsDurable(cfg, s, claim.1);
      var t := s.(row := claim.1);
      PhaseChangeKeepsDurable(cfg, t, w, AfterClaim(claim.0));
      BookkeepingKeepsDurable(cfg, At(t, w, AfterClaim(claim.0)), WriteClaimStep(cfg, s, w, m, rid));
    }
  }

  lemma ReadKeepsDurable(cfg: Config, s: Service, w: nat, call: Call)
    requires Durable(cfg, s) && w in cfg.requests
    requires !call.WriteClaim? && !call.OpenPayment? && !call.AppendPayment? && !call.WriteRecord?
    ensures Durable(cfg, At(s, w, AfterRead(cfg, s, w, call)))
  {
    assert PhaseNamesStored(cfg, s, s.phases[w]);
    if s.phases[w].Opened? && !call.Fault? && !call.Crash? {
      assert At(s, w, AfterRead(cfg, s, w, call)) == s by {
        assert s.phases[w := s.phases[w]] == s.phases;
      }
    } else {
      PhaseChangeKeepsDurable(cfg, s, w, AfterRead(cfg, s, w, call));
    }
  }

  lemma WriteRecordKeepsDurable(cfg: Config, s: Service, w: nat, reply: bool)
    requires Durable(cfg, s) && w in cfg.requests && s.phases[w].Recording?
    ensures Durable(cfg, WriteRecordStep(s, w, reply))
  {
    assert PhaseNamesStored(cfg, s, s.phases[w]);
    var t := WriteRecordStep(s, w, reply);
    if s.row.Some? {
      RowChangeKeepsDurable(cfg, s, t.row);
    }
    PhaseChangeKeepsDurable(cfg, s.(row := t.row), w, t.phases[w]);
  }

  lemma CommandKeepsDurable(cfg: Config, s: Service, w: nat, call: Call)
    requires Durable(cfg, s) && w in s.phases && w in cfg.requests && (call.OpenPayment? || call.AppendPayment?)
    ensures Durable(cfg, CallStep(cfg, s, w, call))
  {
    if call.OpenPayment? && s.phases[w].Holding? {
      OpenKeepsDurable(cfg, s, w, call.paymentId, call.eventId, call.at);
    }
    if call.AppendPayment? && s.phases[w].Opened? {
      AppendKeepsDurable(cfg, s, w, call.stamps);
    }
  }

  lemma KeyWriteKeepsDurable(cfg: Config, s: Service, w: nat, call: Call)
    requires Durable(cfg, s) && RowsOk(s) && w in s.phases && w in cfg.requests
    requires call.WriteClaim? || call.WriteRecord?
    ensures Durable(cfg, CallStep(cfg, s, w, call))
  {
    if call.WriteClaim? && s.phases[w].Saw? {
      WriteClaimKeepsDurable(cfg, s, w, call.m, call.rid);
    }
    if call.WriteRecord? && s.phases[w].Recording? {
      WriteRecordKeepsDurable(cfg, s, w, call.reply);
    }
  }

  lemma WorkerKeepsDurable(cfg: Config, s: Service, w: nat, call: Call)
    requires Durable(cfg, s) && RowsOk(s)
    ensures Durable(cfg, WorkerStep(cfg, s, w, call))
  {
    if w in s.phases && w in cfg.requests {
      if call.OpenPayment? || call.AppendPayment? {
        CommandKeepsDurable(cfg, s, w, call);
      } else if call.WriteClaim? || call.WriteRecord? {
        KeyWriteKeepsDurable(cfg, s, w, call);
      } else {
        ReadKeepsDurable(cfg, s, w, call);
      }
    }
  }

  lemma AdminKeepsDurable(cfg: Config, s: Service, step: Step)
    requires Durable(cfg, s) && RowsOk(s)
    requires step.AdminCreate? || step.AdminRead? || step.AdminWrite? || step.Release? || step.Delete? || step.Cleanup?
    ensures Durable(cfg, Next(cfg, s, step))
  {
    var t := Next(cfg, s, step);
    if step.AdminWrite? && step.k in s.admins {
      AdminKeepsRowOk(s.row, s.admins[step.k], step.at);
    }
    RowChangeKeepsDurable(cfg, s, t.row);
    BookkeepingKeepsDurable(cfg, s.(row := t.row), t);
  }

  lemma StepKeepsDurable(cfg: Config, s: Service, step: Step)
    requires Durable(cfg, s) && RowsOk(s)
    ensures Durable(cfg, Next(cfg, s, step))
  {
    match step {
      case Tick(_) => BookkeepingKeepsDurable(cfg, s, Next(cfg, s, step));
      case Side(side) =>
        var c := ClientOf(side);
        if !(c.Some? && c.value in cfg.requests) {
          HistoryKeepsDurable(cfg, s, side, Next(cfg, s, step), c);
        }
      case AdminCreate(_, _, _) => AdminKeepsDurable(cfg, s, step);
      case AdminRead(_, _, _) => AdminKeepsDurable(cfg, s, step);
      case AdminWrite(_, _) => AdminKeepsDurable(cfg, s, step);
      case Release => AdminKeepsDurable(cfg, s, step);
      case Delete => AdminKeepsDurable(cfg, s, step);
      case Cleanup(_) => AdminKeepsDurable(cfg, s, step);
      case Do(w, call) => WorkerKeepsDurable(cfg, s, w, call);
    }
  }

  lemma {:induction false} EveryRunIsDurable(cfg: Config, now: Time, steps: seq<Step>)
    ensures Durable(cfg, Play(cfg, now, steps))
  {
    if steps != [] {
      var init := steps[..|steps| - 1];
      EveryRunIsDurable(cfg, now, init);
      EveryRowIsOk(cfg, now, init);
      StepKeepsDurable(cfg, Play(cfg, now, init), steps[|steps| - 1]);
    }
  }

  // ---------- whose answer a finished key holds ----------

  /** Worker w acquired the key, and a success it reports is of a payment stored under this key. */
  ghost predicate Earned(cfg: Config, s: Service, w: nat, o: Outcome) {
    w in cfg.requests && w in s.acquired && (o.Paid? ==> o.paymentId in s.executed)
  }

  /** The row carries the answer to worker w's request with outcome o. */
  ghost predicate Answers(cfg: Config, s: Service, r: KeyRow, w: nat, o: Outcome) {
    && Earned(cfg, s, w, o)
    && r.status == StatusFor(o) && r.response == Some(ResponseFor(cfg.requests[w], o))
  }

  ghost predicate RowAnswers(cfg: Config, s: Service, r: KeyRow) {
    r.status != Pending ==> exists w, o :: Answers(cfg, s, r, w, o)
  }

  ghost predicate IsAnswer(cfg: Config, s: Service, r: Response) {
    exists w, o :: Earned(cfg, s, w, o) && r == ResponseFor(cfg.requests[w], o)
  }

  ghost predicate PhaseEarned(cfg: Config, s: Service, w: nat, p: Phase) {
    match p
    case Saw(_, seen) => seen.Some? ==> RowAnswers(cfg, s, seen.value)
    case Holding => w in s.acquired
    case Opened(_) => w in s.acquired
    case Executed(o) => Earned(cfg, s, w, o)
    case Recording(o, image) => Answers(cfg, s, image, w, o)
    case Done(Replayed(r)) => IsAnswer(cfg, s, r)
    case _ => true
  }

  ghost predicate AllEarned(cfg: Config, s: Service) {
    && (s.row.Some? ==> RowAnswers(cfg, s, s.row.value))
    && (forall w :: w in s.phases ==> PhaseEarned(cfg, s, w, s.phases[w]))
  }

  ghost predicate Longer(s: Service, t: Service) {
    && (forall w :: w in s.acquired ==> w in t.acquired)
    && (forall p :: p in s.executed ==> p in t.executed)
  }

  lemma RowStaysAnswered(cfg: Config, s: Service, t: Service, r: KeyRow)
    requires Longer(s, t) && RowAnswers(cfg, s, r)
    ensures RowAnswers(cfg, t, r)
  {
    if r.status != Pending {
      var w, o :| Answers(cfg, s, r, w, o);
      assert Answers(cfg, t, r, w, o);
    }
  }

  lemma PhaseStaysEarned(cfg: Config, s: Service, t: Service, w: nat, p: Phase)
    requires Longer(s, t) && PhaseEarned(cfg, s, w, p)
    ensures PhaseEarned(cfg, t, w, p)
  {
    match p
    case Saw(_, seen) => if seen.Some? { RowStaysAnswered(cfg, s, t, seen.value); }
    case Done(Replayed(r)) =>
      var v, o :| Earned(cfg, s, v, o) && r == ResponseFor(cfg.requests[v], o);
      assert Earned(cfg, t, v, o);
    case _ =>
  }

  lemma MoveKeepsEarned(cfg: Config, s: Service, t: Service, w: nat)
    requires AllEarned(cfg, s) && Longer(s, t) && t.phases.Keys == s.phases.Keys
    requires forall v :: v in s.phases && v != w ==> t.phases[v] == s.phases[v]
    requires w in t.phases ==> PhaseEarned(cfg, t, w, t.phases[w])
    requires t.row == s.row || (t.row.Some? ==> RowAnswers(cfg, t, t.row.value))
    ensures AllEarned(cfg, t)
  {
    if t.row.Some? && t.row == s.row {
      RowStaysAnswered(cfg, s, t, t.row.value);
    }
    forall v | v in t.phases ensures PhaseEarned(cfg, t, v, t.phases[v]) {
      if v != w {
        PhaseStaysEarned(cfg, s, t, v, s.phases[v]);
      }
    }
  }

  /** A row that keeps status and response keeps its answer. */
  lemma SameAnswer(cfg: Config, s: Service, r: KeyRow, x: KeyRow)
    requires RowAnswers(cfg, s, r) && x.status == r.status && x.response == r.response
    ensures RowAnswers(cfg, s, x)
  {
    if r.status != Pending {
      var w, o :| Answers(cfg, s, r, w, o);
      assert Answers(cfg, s, x, w, o);
    }
  }

  lemma RowIsAnswer(cfg: Config, s: Service, r: KeyRow)
    requires RowAnswers(cfg, s, r) && r.status != Pending
    ensures r.response.Some? && IsAnswer(cfg, s, r.response.value)
  {
    var w, o :| Answers(cfg, s, r, w, o);
  }

  lemma WriteClaimKeepsEarned(cfg: Config, s: Service, w: nat, m: Time, rid: Id)
    requires AllEarned(cfg, s) && RowsOk(s) && w in s.phases && w in cfg.requests && s.phases[w].Saw?
    ensures AllEarned(cfg, WriteClaimStep(cfg, s, w, m, rid))
  {
    var p, r, t := s.phases[w], cfg.requests[w], WriteClaimStep(cfg, s, w, m, rid);
    if p.t0 <= m <= s.now {
      ClaimKeepsRowOk(s.row, p.seen, r.fingerprint, r.locker, p.t0, m, rid);
      if s.row.Some? {
        SameAnswer(cfg, s, s.row.value, t.row.value);
        RowStaysAnswered(cfg, s, t, t.row.value);
      }
      assert PhaseEarned(cfg, s, w, p);
      if p.seen.Some? && p.seen.value.status != Pending {
        RowIsAnswer(cfg, s, p.seen.value);
        PhaseStaysEarned(cfg, s, t, w, Done(Replayed(p.seen.value.response.value)));
      }
      MoveKeepsEarned(cfg, s, t, w);
    }
  }

  lemma LookKeepsEarned(cfg: Config, s: Service, w: nat)
    requires AllEarned(cfg, s)
    ensures PhaseEarned(cfg, s, w, AfterLook(s))
  {
    if AfterLook(s).Done? {
      RowIsAnswer(cfg, s, s.row.value);
    }
  }

  lemma ReadKeepsEarned(cfg: Config, s: Service, w: nat, call: Call)
    requires AllEarned(cfg, s) && w in s.phases && w in cfg.requests
    ensures AllEarned(cfg, At(s, w, AfterRead(cfg, s, w, call)))
  {
    var p, q := s.phases[w], AfterRead(cfg, s, w, call);
    assert PhaseEarned(cfg, s, w, p);
    if call.Look? && p.Start? {
      LookKeepsEarned(cfg, s, w);
    }
    assert PhaseEarned(cfg, s, w, q);
    PhaseStaysEarned(cfg, s, At(s, w, q), w, q);
    MoveKeepsEarned(cfg, s, At(s, w, q), w);
  }

  lemma OpenKeepsEarned(cfg: Config, s: Service, w: nat, paymentId: Id, eventId: Id, at: Time)
    requires AllEarned(cfg, s) && w in s.phases && w in cfg.requests && s.phases[w].Holding?
    ensures AllEarned(cfg, OpenStep(cfg, s, w, paymentId, eventId, at))
  {
    assert PhaseEarned(cfg, s, w, s.phases[w]);
    MoveKeepsEarned(cfg, s, OpenStep(cfg, s, w, paymentId, eventId, at), w);
  }

  lemma AppendKeepsEarned(cfg: Config, s: Service, w: nat, stamps: seq<Stamp>)
    requires AllEarned(cfg, s) && w in s.phases && w in cfg.requests && s.phases[w].Opened?
    ensures AllEarned(cfg, AppendStep(cfg, s, w, stamps))
  {
    assert PhaseEarned(cfg, s, w, s.phases[w]);
    MoveKeepsEarned(cfg, s, AppendStep(cfg, s, w, stamps), w);
  }

  lemma WriteRecordKeepsEarned(cfg: Config, s: Service, w: nat, reply: bool)
    requires AllEarned(cfg, s) && w in s.phases && s.phases[w].Recording?
    ensures AllEarned(cfg, WriteRecordStep(s, w, reply))
  {
    var p, t := s.phases[w], WriteRecordStep(s, w, reply);
    assert PhaseEarned(cfg, s, w, p);
    if s.row.Some? {
      assert Answers(cfg, t, t.row.value, w, p.outcome);
    }
    MoveKeepsEarned(cfg, s, t, w);
  }

  lemma WorkerKeepsEarned(cfg: Config, s: Service, w: nat, call: Call)
    requires AllEarned(cfg, s) && RowsOk(s) && w in s.phases && w in cfg.requests
    ensures AllEarned(cfg, CallStep(cfg, s, w, call))
  {
    match call {
      case WriteClaim(m, rid) => if s.phases[w].Saw? { WriteClaimKeepsEarned(cfg, s, w, m, rid); }
      case OpenPayment(id, e, at) => if s.phases[w].Holding? { OpenKeepsEarned(cfg, s, w, id, e, at); }
      case AppendPayment(stamps) => if s.phases[w].Opened? { AppendKeepsEarned(cfg, s, w, stamps); }
      case WriteRecord(reply) => if s.phases[w].Recording? { WriteRecordKeepsEarned(cfg, s, w, reply); }
      case _ => ReadKeepsEarned(cfg, s, w, call);
    }
  }

  /** Whoever else writes the row leaves its status and response, or deletes it, or makes a pending one. */
  lemma OthersKeepEarned(cfg: Config, s: Service, step: Step)
    requires AllEarned(cfg, s) && RowsOk(s) && !step.Do?
    ensures AllEarned(cfg, Next(cfg, s, step))
  {
    var t := Next(cfg, s, step);
    if step.AdminWrite? && step.k in s.admins {
      AdminKeepsRowOk(s.row, s.admins[step.k], step.at);
    }
    if s.row.Some? && t.row.Some? {
      SameAnswer(cfg, s, s.row.value, t.row.value);
      RowStaysAnswered(cfg, s, t, t.row.value);
    }
    forall w | w in t.phases ensures PhaseEarned(cfg, t, w, t.phases[w]) {
      PhaseStaysEarned(cfg, s, t, w, s.phases[w]);
    }
  }

  /**
    In every run, with expired leases, crashes and double claims: what a finished key holds, and what any request is
    replayed, is the answer to a worker that acquired the key, and a success names a payment stored under this key.
   */
  lemma {:induction false} EveryAnswerIsEarned(cfg: Config, now: Time, steps: seq<Step>)
    ensures AllEarned(cfg, Play(cfg, now, steps))
  {
    if steps != [] {
      var init, last := steps[..|steps| - 1], steps[|steps| - 1];
      var s := Play(cfg, now, init);
      EveryAnswerIsEarned(cfg, now, init);
      EveryRowIsOk(cfg, now, init);
      if last.Do? {
        if last.w in s.phases && last.w in cfg.requests {
          WorkerKeepsEarned(cfg, s, last.w, last.call);
        }
      } else {
        OthersKeepEarned(cfg, s, last);
      }
    }
  }

  /**
    Durable success: in every run, with expired leases, crashes and double claims, a completed key names a payment that
    was executed under this key and whose stream is in the store, a legal one starting with its creation.
   */
  lemma CompletedNamesStoredPayment(cfg: Config, now: Time, steps: seq<Step>)
    requires Play(cfg, now, steps).row.Some? && Play(cfg, now, steps).row.value.status == Completed
    ensures var s := Play(cfg, now, steps);
            var response := s.row.value.response;
            && response.Some? && response.value.body.PaymentBody?
            && response.value.body.paymentId in s.executed
            && var stream := EventsIn(RowsOf(Db(cfg, s).db.eventStore, response.value.body.paymentId));
               Legal(stream) && stream[0].paymentId == response.value.body.paymentId
  {
    var s := Play(cfg, now, steps);
    EveryRunIsDurable(cfg, now, steps);
    EveryAnswerIsEarned(cfg, now, steps);
    assert NamesStored(cfg, s, s.row.value);
    W.EveryRunIsSound(s.history, cfg.debug);
    var p := s.row.value.response.value.body.paymentId;
    assert W.StreamOk(RowsOf(Db(cfg, s).db.eventStore, p), p);
  }

  /**
    Client-chosen ids: whatever happens to the lease, in every run of the protocol the store holds at most one creation
    for each payment id.
   */
  lemma OneCreationWhateverTheLease(cfg: Config, now: Time, steps: seq<Step>, i: nat, j: nat)
    requires var log := Db(cfg, Play(cfg, now, steps)).db.eventStore;
             && i < |log| && j < |log| && log[i].event.body.Created? && log[j].event.body.Created?
             && log[i].event.paymentId == log[j].event.paymentId
    ensures i == j
  {
    W.OneCreationPerPayment(Play(cfg, now, steps).history, cfg.debug, i, j);
  }

  // ---------- keys of refunds ----------

  ghost predicate OnlyRefunds(cfg: Config) {
    forall w :: w in cfg.requests ==> cfg.requests[w].creation.CreateRefund?
  }

  predicate NoSuccess(p: Phase) {
    match p
    case Executed(o) => !o.Paid?
    case Recording(o, image) => !o.Paid? && image.status != Completed
    case _ => true
  }

  ghost predicate NeverCompleted(s: Service) {
    && (s.row.Some? ==> s.row.value.status != Completed)
    && forall w :: w in s.phases ==> NoSuccess(s.phases[w])
  }

  lemma MoveNeverCompletes(s: Service, t: Service, w: nat)
    requires NeverCompleted(s) && t.phases.Keys == s.phases.Keys
    requires t.row.Some? ==> t.row.value.status != Completed
    requires forall v :: v in s.phases && v != w ==> t.phases[v] == s.phases[v]
    requires w in t.phases ==> NoSuccess(t.phases[w])
    ensures NeverCompleted(t)
  {
  }

  lemma WriteClaimNeverCompletes(cfg: Config, s: Service, w: nat, m: Time, rid: Id)
    requires RowsOk(s) && NeverCompleted(s) && w in s.phases && w in cfg.requests && s.phases[w].Saw?
    ensures NeverCompleted(WriteClaimStep(cfg, s, w, m, rid))
  {
    ClaimKeepsRowOk(s.row, s.phases[w].seen, cfg.requests[w].fingerprint, cfg.requests[w].locker,
                    s.phases[w].t0, m, rid);
    MoveNeverCompletes(s, WriteClaimStep(cfg, s, w, m, rid), w);
  }

  lemma CommandNeverCompletes(cfg: Config, s: Service, w: nat, paymentId: Id, eventId: Id, at: Time, stamps: seq<Stamp>)
    requires OnlyRefunds(cfg) && NeverCompleted(s) && w in s.phases && w in cfg.requests
    ensures s.phases[w].Holding? ==> NeverCompleted(OpenStep(cfg, s, w, paymentId, eventId, at))
    ensures s.phases[w].Opened? ==> NeverCompleted(AppendStep(cfg, s, w, stamps))
  {
  }

  lemma ReadNeverCompletes(cfg: Config, s: Service, w: nat, call: Call)
    requires NeverCompleted(s) && w in s.phases && w in cfg.requests
    ensures NeverCompleted(At(s, w, AfterRead(cfg, s, w, call)))
  {
    assert NoSuccess(s.phases[w]);
    assert NoSuccess(AfterRead(cfg, s, w, call));
    MoveNeverCompletes(s, At(s, w, AfterRead(cfg, s, w, call)), w);
  }

  lemma WorkerNeverCompletes(cfg: Config, s: Service, w: nat, call: Call)
    requires OnlyRefunds(cfg) && RowsOk(s) && NeverCompleted(s) && w in s.phases && w in cfg.requests
    ensures NeverCompleted(CallStep(cfg, s, w, call))
  {
    assert NoSuccess(s.phases[w]);
    match call {
      case WriteClaim(m, rid) => if s.phases[w].Saw? { WriteClaimNeverCompletes(cfg, s, w, m, rid); }
      case OpenPayment(id, e, at) => CommandNeverCompletes(cfg, s, w, id, e, at, []);
      case AppendPayment(stamps) => CommandNeverCompletes(cfg, s, w, 0, 0, 0, stamps);
      case WriteRecord(reply) =>
        if s.phases[w].Recording? { MoveNeverCompletes(s, WriteRecordStep(s, w, reply), w); }
      case _ => ReadNeverCompletes(cfg, s, w, call);
    }
  }

  lemma StepNeverCompletes(cfg: Config, s: Service, step: Step)
    requires OnlyRefunds(cfg) && RowsOk(s) && NeverCompleted(s)
    ensures NeverCompleted(Next(cfg, s, step))
  {
    match step {
      case Do(w, call) => if w in s.phases && w in cfg.requests { WorkerNeverCompletes(cfg, s, w, call); }
      case AdminWrite(k, at) => if k in s.admins { AdminKeepsRowOk(s.row, s.admins[k], at); }
      case _ =>
    }
  }

  /** A refund is stored, yet its request raises afterwards: a key used by refunds alone is never COMPLETED. */
  lemma {:induction false} RefundKeysNeverComplete(cfg: Config, now: Time, steps: seq<Step>)
    requires OnlyRefunds(cfg)
    ensures NeverCompleted(Play(cfg, now, steps))
  {
    if steps != [] {
      var init := steps[..|steps| - 1];
      RefundKeysNeverComplete(cfg, now, init);
      EveryRowIsOk(cfg, now, init);
      StepNeverCompletes(cfg, Play(cfg, now, init), steps[|steps| - 1]);
    }
  }
}
