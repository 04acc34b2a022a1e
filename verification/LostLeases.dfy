/** What a key loses with its lease: runs of the protocol that execute one key twice. */
module LostLeases {
  import opened Basics
  import opened Payments
  import opened Storage
  import opened EventStore
  import W = WriteSide
  import opened CommandService
  import opened Idempotency
  import opened LeaseProtocol
  import ExecuteOnce
  import opened Executor

  function Dos(w: nat, calls: seq<Call>): (r: seq<LeaseProtocol.Step>)
    ensures |r| == |calls|
    ensures forall i :: 0 <= i < |calls| ==> r[i] == Do(w, calls[i])
  {
    seq(|calls|, i requires 0 <= i < |calls| => Do(w, calls[i]))
  }

  lemma OneCall(cfg: Config, s: Service, w: nat, call: Call)
    ensures Next(cfg, s, Do(w, call)) == WorkerStep(cfg, s, w, call)
  {
  }

  lemma {:induction false} PlayCalls(cfg: Config, now: Time, steps: seq<LeaseProtocol.Step>, w: nat, calls: seq<Call>)
    ensures Play(cfg, now, steps + Dos(w, calls)) == CallAll(cfg, Play(cfg, now, steps), w, calls)
    decreases |calls|
  {
    if calls == [] {
      assert steps + Dos(w, calls) == steps;
    } else {
      var s := Play(cfg, now, steps);
      OneCall(cfg, s, w, calls[0]);
      ExecuteOnce.PlayReaches(cfg, now, steps, s, Do(w, calls[0]), WorkerStep(cfg, s, w, calls[0]));
      PlayCalls(cfg, now, steps + [Do(w, calls[0])], w, calls[1..]);
      assert steps + Dos(w, calls) == steps + [Do(w, calls[0])] + Dos(w, calls[1..]);
    }
  }

  /** The key is missing, or pending without a live lock and born of the same payload. */
  predicate Claimable(row: Option<KeyRow>, fingerprint: string, now: Time) {
    row.None? || (row.value.status == Pending && row.value.fingerprint == fingerprint
                  && now < row.value.expiresAt && IsLockExpired(row.value, now))
  }

  ghost predicate Waiting(cfg: Config, s: Service, w: nat, p: Plan) {
    Ready(cfg, s, w, p) && s.phases[w].Start? && Claimable(s.row, cfg.requests[w].fingerprint, p.now)
  }

  /** A waiting worker that nobody interrupts takes a claimable key, whoever acquired it before. */
  lemma WaitingWorkerAcquires(cfg: Config, s: Service, w: nat, p: Plan)
    requires Waiting(cfg, s, w, p)
    ensures var t := CallAll(cfg, s, w, ClaimCalls(p));
            && t == s.(phases := s.phases[w := Holding], row := t.row, acquired := s.acquired + [w])
            && t.row.Some? && t.row.value.status == Pending
            && t.row.value.fingerprint == cfg.requests[w].fingerprint
            && t.row.value.lockedUntil.Some? && t.row.value.lockedUntil.value <= p.now + LEASE_SECONDS * SECOND
            && (s.row.None? ==> t.row.value.expiresAt == p.now + DAY)
  {
    ClaimRuns(cfg, s, w, p);
    var r := cfg.requests[w];
    AcquiredLease(s.row, s.row, r.fingerprint, r.locker, p.now, p.now, p.rid);
  }

  ghost predicate TwoRequests(cfg: Config, w: nat, v: nat) {
    w != v && w in cfg.requests && v in cfg.requests && cfg.requests[w].fingerprint == cfg.requests[v].fingerprint
  }

  lemma FirstClaim(cfg: Config, w: nat, v: nat, p: Plan)
    requires TwoRequests(cfg, w, v)
    ensures var t := Play(cfg, p.now, Dos(w, ClaimCalls(p)));
            && t == Begin(cfg, p.now).(phases := Begin(cfg, p.now).phases[w := Holding], row := t.row, acquired := [w])
            && t.row.Some? && t.row.value.status == Pending
            && t.row.value.fingerprint == cfg.requests[v].fingerprint && t.row.value.expiresAt == p.now + DAY
            && t.row.value.lockedUntil.Some? && t.row.value.lockedUntil.value <= p.now + LEASE_SECONDS * SECOND
  {
    var s := Begin(cfg, p.now);
    assert Play(cfg, p.now, []) == s;
    PlayCalls(cfg, p.now, [], w, ClaimCalls(p));
    assert [] + Dos(w, ClaimCalls(p)) == Dos(w, ClaimCalls(p));
    WaitingWorkerAcquires(cfg, s, w, p);
    assert s.acquired + [w] == [w];
  }

  const LAPSE: nat := 31 * SECOND

  /** One worker claims and is slow; a second after the lease has run out another worker claims. */
  function SlowRun(w: nat, v: nat, p: Plan, q: Plan): seq<LeaseProtocol.Step> {
    Dos(w, ClaimCalls(p)) + [LeaseProtocol.Tick(LAPSE)] + Dos(v, ClaimCalls(q))
  }

  /** Exactly-once fails: in every configuration with two requests for one payload both can acquire the key. */
  lemma SlowWorkerIsOvertaken(cfg: Config, w: nat, v: nat, p: Plan, q: Plan)
    requires TwoRequests(cfg, w, v) && q.now == p.now + LAPSE
    ensures var s := Play(cfg, p.now, SlowRun(w, v, p, q));
            && s.acquired == [w, v] && s.executed == [] && s.history == [] && s.now == q.now
            && w in s.phases && s.phases[w] == Holding && v in s.phases && s.phases[v] == Holding
  {
    var first := Dos(w, ClaimCalls(p));
    FirstClaim(cfg, w, v, p);
    ExecuteOnce.PlaySnoc(cfg, p.now, first, LeaseProtocol.Tick(LAPSE));
    var s := Play(cfg, p.now, first + [LeaseProtocol.Tick(LAPSE)]);
    PlayCalls(cfg, p.now, first + [LeaseProtocol.Tick(LAPSE)], v, ClaimCalls(q));
    assert Waiting(cfg, s, v, q);
    WaitingWorkerAcquires(cfg, s, v, q);
    assert [w] + [v] == [w, v];
  }

  /** The other exclusions are needed too: a deletion, or an unlock by hand, and a second worker acquires in time. */
  lemma DeletedKeyIsClaimedAgain(cfg: Config, w: nat, v: nat, p: Plan, q: Plan)
    requires TwoRequests(cfg, w, v) && q.now == p.now
    ensures Play(cfg, p.now, Dos(w, ClaimCalls(p)) + [Delete] + Dos(v, ClaimCalls(q))).acquired == [w, v]
  {
    var first := Dos(w, ClaimCalls(p));
    FirstClaim(cfg, w, v, p);
    ExecuteOnce.PlaySnoc(cfg, p.now, first, Delete);
    PlayCalls(cfg, p.now, first + [Delete], v, ClaimCalls(q));
    assert Waiting(cfg, Play(cfg, p.now, first + [Delete]), v, q);
    WaitingWorkerAcquires(cfg, Play(cfg, p.now, first + [Delete]), v, q);
  }

  function Unlocking(at: Time): seq<LeaseProtocol.Step> {
    [AdminRead(0, UnlockOp, at), AdminWrite(0, at)]
  }

  lemma UnlockTakesEffect(cfg: Config, s: Service)
    requires s.row.Some? && s.row.value.status == Pending
    ensures var t := Next(cfg, Next(cfg, s, AdminRead(0, UnlockOp, s.now)), AdminWrite(0, s.now));
            && t.phases == s.phases && t.acquired == s.acquired && t.now == s.now
            && t.row.Some? && t.row.value.status == Pending && IsLockExpired(t.row.value, t.now)
            && t.row.value.fingerprint == s.row.value.fingerprint && t.row.value.expiresAt == s.row.value.expiresAt
  {
  }

  lemma UnlockedKeyIsClaimedAgain(cfg: Config, w: nat, v: nat, p: Plan, q: Plan)
    requires TwoRequests(cfg, w, v) && q.now == p.now
    ensures Play(cfg, p.now, Dos(w, ClaimCalls(p)) + Unlocking(p.now) + Dos(v, ClaimCalls(q))).acquired == [w, v]
  {
    var first := Dos(w, ClaimCalls(p));
    FirstClaim(cfg, w, v, p);
    var s := Play(cfg, p.now, first);
    var s1 := Next(cfg, s, AdminRead(0, UnlockOp, p.now));
    var s2 := Next(cfg, s1, AdminWrite(0, p.now));
    UnlockTakesEffect(cfg, s);
    ExecuteOnce.PlayTwice(cfg, p.now, first, AdminRead(0, UnlockOp, p.now), AdminWrite(0, p.now), s, s1, s2);
    PlayCalls(cfg, p.now, first + Unlocking(p.now), v, ClaimCalls(q));
    WaitingWorkerAcquires(cfg, s2, v, q);
  }

  /** A key created by hand has no lock, so two workers can claim it from the start. */
  function BornByHand(rid: Id, fingerprint: string, expiresAt: Time, w: nat, v: nat): seq<LeaseProtocol.Step> {
    [AdminCreate(rid, fingerprint, expiresAt), Do(w, Look), Do(v, Look)]
  }

  lemma KeyCreatedByHandIsClaimedTwice(cfg: Config, now: Time, w: nat, v: nat, rid: Id, expiresAt: Time)
    requires TwoRequests(cfg, w, v) && now < expiresAt
    ensures var steps := BornByHand(rid, cfg.requests[w].fingerprint, expiresAt, w, v);
            Play(cfg, now, steps + ExecuteOnce.BothClaim(w, v, now)).acquired == [w, v]
  {
    var fingerprint := cfg.requests[w].fingerprint;
    var steps := BornByHand(rid, fingerprint, expiresAt, w, v);
    var s := Begin(cfg, now);
    var s1 := s.(row := Some(NewKey(rid, fingerprint, expiresAt)));
    var s2, s3 := At(s1, w, Looked), At(At(s1, w, Looked), v, Looked);
    assert Play(cfg, now, []) == s;
    ExecuteOnce.PlayReaches(cfg, now, [], s, steps[0], s1);
    ExecuteOnce.PlayTwice(cfg, now, [] + [steps[0]], steps[1], steps[2], s1, s2, s3);
    assert steps == [] + [steps[0]] + [steps[1], steps[2]];
    ExecuteOnce.LapsedLeaseIsStolenTwice(cfg, now, steps, w, v);
    assert [] + [w, v] == [w, v];
  }

  // ---------- the price: two payments for one key ----------

  /** A command that succeeds on its own: a known method, a positive amount, no refund. */
  predicate Payable(r: Request, p: Plan) {
    && Prepared(r.creation, r.means).Ok? && !r.creation.CreateRefund?
    && Open(Prepared(r.creation, r.means).value, p.paymentId, p.eventId, p.now).Ok?
  }

  function Made(cfg: Config, s: Service, w: nat, p: Plan): Result<Tables, ServiceError>
    requires w in cfg.requests
  {
    var r := cfg.requests[w];
    CreatePayment(Db(cfg, s).db, cfg.debug, r.creation, r.means, p.paymentId, p.eventId, p.now, p.stamp)
  }

  lemma PaidOnFreshId(cfg: Config, s: Service, w: nat, p: Plan, other: Id)
    requires Ready(cfg, s, w, p) && s.phases[w].Holding? && Payable(cfg.requests[w], p)
    requires Fresh(Db(cfg, s).db, p.stamp) && RowsOf(Db(cfg, s).db.eventStore, p.paymentId) == []
    ensures var t := CallAll(cfg, s, w, CommandCalls(p));
            && Made(cfg, s, w, p).Ok? && Commanded(cfg, s, w, p, Made(cfg, s, w, p), t)
            && t.executed == s.executed + [p.paymentId] && RowsOf(Db(cfg, t).db.eventStore, p.paymentId) != []
            && (other != p.paymentId ==>
                  RowsOf(Db(cfg, t).db.eventStore, other) == RowsOf(Db(cfg, s).db.eventStore, other))
  {
    var r := cfg.requests[w];
    W.EveryRunIsSound(s.history, cfg.debug);
    CreationCommitsIff(Db(cfg, s).db, cfg.debug, r.creation, r.means, p.paymentId, p.eventId, p.now, p.stamp, other);
    CommandRuns(cfg, s, w, p);
  }

  lemma SaveUsesItsStamp(t: Tables, debug: bool, a: Aggregate, stamp: Stamp, next: Stamp)
    requires |a.uncommitted| == 1 && Persist(t, debug, a, stamp).Ok?
    requires Fresh(t, next) && next.rowId != stamp.rowId && next.outboxId != stamp.outboxId
    ensures Fresh(Persist(t, debug, a, stamp).value, next)
  {
    var p := a.core.paymentId;
    AppendPeels(t, debug, p, a.version - 1, a.uncommitted, [stamp], 0);
    assert a.uncommitted[0..] == a.uncommitted && [stamp][0..] == [stamp];
    AppendOneShape(t, debug, p, a.version, a.uncommitted[0], stamp);
  }

  /** What a creation adds to the tables' keys. */
  lemma CreationUsesItsStamp(t: Tables, debug: bool, c: Creation, means: string, p: Id, eventId: Id, now: Time,
                             stamp: Stamp, next: Stamp)
    requires W.StreamsOk(t.eventStore) && CreatePayment(t, debug, c, means, p, eventId, now, stamp).Ok?
    requires Fresh(t, next) && next.rowId != stamp.rowId && next.outboxId != stamp.outboxId
    ensures Fresh(CreatePayment(t, debug, c, means, p, eventId, now, stamp).value, next)
  {
    var prepared := Prepared(c, means).value;
    OpenedBuilds([], prepared, p, eventId, now);
    SaveUsesItsStamp(t, debug, Open(prepared, p, eventId, now).value, stamp, next);
  }

  ghost predicate Apart(p: Plan, q: Plan) {
    && p.paymentId != q.paymentId && p.stamp.rowId != q.stamp.rowId && p.stamp.outboxId != q.stamp.outboxId
  }

  /** Both workers go on to execute their commands. */
  function PayingRun(w: nat, v: nat, p: Plan, q: Plan): seq<LeaseProtocol.Step> {
    SlowRun(w, v, p, q) + Dos(w, CommandCalls(p.(now := q.now))) + Dos(v, CommandCalls(q))
  }

  lemma FirstPays(cfg: Config, s: Service, w: nat, p: Plan, q: Plan)
    requires Ready(cfg, s, w, p) && s.phases[w].Holding? && Payable(cfg.requests[w], p)
    requires s.history == [] && Apart(p, q)
    ensures var t := CallAll(cfg, s, w, CommandCalls(p));
            && SameKey(s, t, w) && t.executed == s.executed + [p.paymentId]
            && RowsOf(Db(cfg, t).db.eventStore, p.paymentId) != []
            && Fresh(Db(cfg, t).db, q.stamp) && RowsOf(Db(cfg, t).db.eventStore, q.paymentId) == []
  {
    var r := cfg.requests[w];
    W.EveryRunIsSound(s.history, cfg.debug);
    PaidOnFreshId(cfg, s, w, p, q.paymentId);
    CreationUsesItsStamp(Db(cfg, s).db, cfg.debug, r.creation, r.means, p.paymentId, p.eventId, p.now, p.stamp, q.stamp);
  }

  lemma BothPay(cfg: Config, s: Service, w: nat, v: nat, p: Plan, q: Plan)
    requires w != v && Ready(cfg, s, w, p) && Ready(cfg, s, v, q) && s.phases[w].Holding? && s.phases[v].Holding?
    requires s.history == [] && s.executed == [] && Apart(p, q)
    requires Payable(cfg.requests[w], p) && Payable(cfg.requests[v], q)
    ensures var t := CallAll(cfg, CallAll(cfg, s, w, CommandCalls(p)), v, CommandCalls(q));
            && t.executed == [p.paymentId, q.paymentId] && t.acquired == s.acquired
            && RowsOf(Db(cfg, t).db.eventStore, p.paymentId) != []
            && RowsOf(Db(cfg, t).db.eventStore, q.paymentId) != []
  {
    FirstPays(cfg, s, w, p, q);
    PaidOnFreshId(cfg, CallAll(cfg, s, w, CommandCalls(p)), v, q, p.paymentId);
    assert [] + [p.paymentId] + [q.paymentId] == [p.paymentId, q.paymentId];
  }

  /**
    Two payments for one key: in every configuration with two valid requests for one payload, a worker that is slower
    than its lease ends with both workers' payments in the store.
   */
  lemma OneKeyPaysTwice(cfg: Config, w: nat, v: nat, p: Plan, q: Plan)
    requires TwoRequests(cfg, w, v) && q.now == p.now + LAPSE && Apart(p, q)
    requires Payable(cfg.requests[w], p.(now := q.now)) && Payable(cfg.requests[v], q)
    ensures var s := Play(cfg, p.now, PayingRun(w, v, p, q));
            && s.acquired == [w, v] && s.executed == [p.paymentId, q.paymentId]
            && RowsOf(Db(cfg, s).db.eventStore, p.paymentId) != []
            && RowsOf(Db(cfg, s).db.eventStore, q.paymentId) != []
  {
    var slow := SlowRun(w, v, p, q);
    var late := p.(now := q.now);
    SlowWorkerIsOvertaken(cfg, w, v, p, q);
    PlayCalls(cfg, p.now, slow, w, CommandCalls(late));
    PlayCalls(cfg, p.now, slow + Dos(w, CommandCalls(late)), v, CommandCalls(q));
    BothPay(cfg, Play(cfg, p.now, slow), w, v, late, q);
  }

  // ---------- successes that are not recorded as such ----------

  /** Worker w has stored its payment and is about to record it on the key it holds. */
  ghost predicate AboutToRecord(cfg: Config, s: Service, w: nat, paymentId: Id) {
    && w in s.phases && w in cfg.requests && s.phases[w] == Executed(Paid(paymentId))
    && s.row.Some? && s.row.value.status == Pending && s.now < s.row.value.expiresAt
  }

  function FinishedRow(row: KeyRow, status: KeyStatus, response: Response): KeyRow {
    KeyRow(row.rid, row.fingerprint, row.expiresAt, status, Some(response), None, None)
  }

  /**
    If recording a success raises, the request falls into the failure handler: the key says FAILED, the payment stays.
   */
  lemma FaultedSuccessIsRecordedFailed(cfg: Config, s: Service, w: nat, paymentId: Id)
    requires AboutToRecord(cfg, s, w, paymentId)
    ensures var t := CallAll(cfg, s, w, [Fault] + RECORD_CALLS);
            && t.history == s.history && t.executed == s.executed
            && t.row == Some(FinishedRow(s.row.value, KeyStatus.Failed, Response(400, ErrorBody("record"))))
            && w in t.phases && t.phases[w] == Done(Recorded)
  {
    var s1 := At(s, w, Executed(Failure("record")));
    var image := FinishedRow(s.row.value, KeyStatus.Failed, Response(400, ErrorBody("record")));
    var s2 := At(s1, w, Recording(Failure("record"), image));
    assert WorkerStep(cfg, s, w, Fault) == s1;
    assert WorkerStep(cfg, s1, w, ReadRecord) == s2;
    TwoCalls(cfg, s1, w, ReadRecord, WriteRecord(true), s2, WorkerStep(cfg, s2, w, WriteRecord(true)));
    assert ([Fault] + RECORD_CALLS)[1..] == RECORD_CALLS;
  }

  /**
    If the write lands and raises all the same, the failure handler finds the key finished and gives up: it stays
    COMPLETED.
   */
  lemma UnansweredSuccessStays(cfg: Config, s: Service, w: nat, paymentId: Id)
    requires AboutToRecord(cfg, s, w, paymentId)
    ensures var c, t := cfg.requests[w].creation, CallAll(cfg, s, w, [ReadRecord, WriteRecord(false)] + RECORD_CALLS);
            && t.history == s.history && t.executed == s.executed
            && t.row == Some(FinishedRow(s.row.value, Completed, Response(200, PaymentBody(paymentId, c.amount, c.currency))))
            && w in t.phases && t.phases[w] == Done(GaveUp)
  {
    var c := cfg.requests[w].creation;
    var image := FinishedRow(s.row.value, Completed, Response(200, PaymentBody(paymentId, c.amount, c.currency)));
    var s1 := At(s, w, Recording(Paid(paymentId), image));
    var s2 := At(s1, w, Executed(Failure("record"))).(row := Some(image));
    var s3 := At(s2, w, Done(GaveUp));
    TwoCalls(cfg, s, w, ReadRecord, WriteRecord(false), s1, s2);
    assert WorkerStep(cfg, s3, w, WriteRecord(true)) == s3;
    TwoCalls(cfg, s2, w, ReadRecord, WriteRecord(true), s3, s3);
    CallsAppend(cfg, s, w, [ReadRecord, WriteRecord(false)], RECORD_CALLS);
  }
}
