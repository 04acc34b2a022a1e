/** Execute at most once: what the lease protocol guarantees when every outcome is recorded within its lease. */
module ExecuteOnce {
  import opened Basics
  import opened Idempotency
  import EventStore
  import opened LeaseProtocol

  /** No pending row outlives its lease. */
  ghost predicate OnTime(s: Service) {
    s.row.Some? && s.row.value.status == Pending && s.row.value.lockedUntil.Some? ==> s.now < s.row.value.lockedUntil.value
  }

  /**
    The key is born by a claim, and nobody deletes it or takes a live lock from it by hand. Calls of these kinds that
    find nothing to do are allowed: a creation of an existing key, a deletion of a missing one, a cleanup that does not
    reach it, an unlock that read no live lock.
   */
  predicate Allowed(s: Service, step: Step) {
    && (step.AdminCreate? ==> s.row.Some?)
    && (step.Delete? ==> s.row.None?)
    && (step.Cleanup? && s.row.Some? ==> s.row.value.expiresAt >= step.cutoff)
    && (step.AdminWrite? && step.k in s.admins && s.admins[step.k].op.UnlockOp? && s.admins[step.k].seen.Some? ==>
          !AdminMay(UnlockOp, s.admins[step.k].seen.value, s.admins[step.k].t0, step.at))
  }

  ghost predicate Timely(cfg: Config, now: Time, steps: seq<Step>) {
    && OnTime(Play(cfg, now, steps))
    && (steps != [] ==>
          && Allowed(Play(cfg, now, steps[..|steps| - 1]), steps[|steps| - 1])
          && Timely(cfg, now, steps[..|steps| - 1]))
  }

  // ---------- the invariant ----------

  /** What a read at or after t0 may have seen, given what the row is now. */
  ghost predicate SeenOk(row: Option<KeyRow>, x: KeyRow, t0: Time) {
    && row.Some? && x.rid == row.value.rid
    && x.fingerprint == row.value.fingerprint && x.expiresAt == row.value.expiresAt
    && (x.status == Pending ==> x.lockedUntil.Some? && x.lockedUntil.value > t0)
    && (x.status == Pending && row.value.status == Pending ==> row.value == x)
    && (x.status != Pending ==> row.value == x)
  }

  ghost predicate ImageOk(cfg: Config, s: Service, w: nat, o: Outcome, image: KeyRow) {
    && s.row.Some? && s.row.value.status == Pending && w in cfg.requests
    && image == Finish(s.row.value, StatusFor(o), ResponseFor(cfg.requests[w], o)).value
  }

  /** What an outcome says about the store: a success names the one payment, a failed command or append left none. */
  predicate Honest(s: Service, o: Outcome) {
    match o
    case Paid(p) => s.executed == [p]
    case Failure(error) => s.executed == [] <==> error == "command" || error == "append"
  }

  ghost predicate Unfinished(s: Service) {
    s.row.Some? && s.row.value.status == Pending
  }

  /** The row holds the outcome o of the one worker that acquired the key. */
  ghost predicate Tells(cfg: Config, s: Service, r: KeyRow, o: Outcome) {
    && |s.acquired| == 1 && s.acquired[0] in cfg.requests && Honest(s, o)
    && r.status == StatusFor(o) && r.response == Some(ResponseFor(cfg.requests[s.acquired[0]], o))
  }

  ghost predicate RowTells(cfg: Config, s: Service) {
    s.row.Some? && s.row.value.status != Pending ==> exists o :: Tells(cfg, s, s.row.value, o)
  }

  lemma RowStaysTelling(cfg: Config, s: Service, t: Service)
    requires RowTells(cfg, s) && t.row == s.row && t.acquired == s.acquired && t.executed == s.executed
    ensures RowTells(cfg, t)
  {
    if s.row.Some? && s.row.value.status != Pending {
      var o :| Tells(cfg, s, s.row.value, o);
      assert Tells(cfg, t, t.row.value, o);
    }
  }

  ghost predicate PhaseOk(cfg: Config, s: Service, w: nat, p: Phase) {
    match p
    case Claiming(t0) => t0 <= s.now
    case Saw(t0, seen) => t0 <= s.now && (seen.Some? ==> SeenOk(s.row, seen.value, t0))
    case Holding => s.acquired == [w] && s.executed == [] && Unfinished(s)
    case Opened(_) => s.acquired == [w] && s.executed == [] && Unfinished(s)
    case Executed(o) => s.acquired == [w] && Honest(s, o)
    case Recording(o, image) => s.acquired == [w] && Honest(s, o) && ImageOk(cfg, s, w, o, image)
    case Done(Replayed(r)) => s.row.Some? && s.row.value.status != Pending && s.row.value.response == Some(r)
    case _ => true
  }

  ghost predicate CallOk(s: Service, c: AdminCall) {
    && c.t0 <= s.now
    && (c.seen.Some? ==> SeenOk(s.row, c.seen.value, c.t0))
  }

  ghost predicate RowAcquired(cfg: Config, s: Service) {
    && (s.row.None? ==> s.acquired == [] && s.executed == [])
    && (s.row.Some? ==>
          && |s.acquired| == 1 && s.acquired[0] in cfg.requests
          && s.row.value.fingerprint == cfg.requests[s.acquired[0]].fingerprint
          && (s.row.value.status == Pending ==> s.row.value.lockedUntil.Some?))
    && |s.executed| <= 1
  }

  ghost predicate Once(cfg: Config, s: Service) {
    && RowAcquired(cfg, s) && RowTells(cfg, s)
    && (forall w :: w in s.phases ==> PhaseOk(cfg, s, w, s.phases[w]))
    && (forall k :: k in s.admins ==> CallOk(s, s.admins[k]))
  }

  // ---------- steps that leave row, acquisitions and executions alone ----------

  lemma MoveKeepsOnce(cfg: Config, s: Service, t: Service, w: nat)
    requires Once(cfg, s)
    requires t.row == s.row && t.acquired == s.acquired && t.executed == s.executed && t.now >= s.now
    requires t.admins == s.admins && t.phases.Keys == s.phases.Keys
    requires forall v :: v in s.phases && v != w ==> t.phases[v] == s.phases[v]
    requires w in s.phases ==> PhaseOk(cfg, t, w, t.phases[w])
    ensures Once(cfg, t)
  {
    RowStaysTelling(cfg, s, t);
    forall v | v in t.phases ensures PhaseOk(cfg, t, v, t.phases[v]) {
      if v != w {
        assert PhaseOk(cfg, s, v, s.phases[v]);
      }
    }
    forall k | k in t.admins ensures CallOk(t, t.admins[k]) {
      assert CallOk(s, s.admins[k]);
    }
  }

  lemma AdminReadKeepsOnce(cfg: Config, s: Service, k: nat, op: AdminOp, t0: Time)
    requires Once(cfg, s) && OnTime(s)
    ensures Once(cfg, Next(cfg, s, AdminRead(k, op, t0)))
  {
    var t := Next(cfg, s, AdminRead(k, op, t0));
    RowStaysTelling(cfg, s, t);
    forall v | v in t.phases ensures PhaseOk(cfg, t, v, t.phases[v]) {
      assert PhaseOk(cfg, s, v, s.phases[v]);
    }
    forall j | j in t.admins ensures CallOk(t, t.admins[j]) {
      if j in s.admins {
        assert CallOk(s, s.admins[j]);
      }
    }
  }

  /** Within the lease the administrators' writes change nothing. */
  lemma AdminWriteIsIdle(s: Service, c: AdminCall, at: Time)
    requires RowsOk(s) && OnTime(s) && CallOk(s, c) && c.t0 <= at <= s.now
    requires c.op.UnlockOp? && c.seen.Some? ==> !AdminMay(c.op, c.seen.value, c.t0, at)
    ensures AdminEffect(s.row, c.op, c.seen, c.t0, at) == s.row
  {
    if c.seen.Some? && AdminMay(c.op, c.seen.value, c.t0, at) {
      assert SeenOk(s.row, c.seen.value, c.t0);
      assert c.op.ForceUnlockOp?;
      assert s.row.value.status != Pending;
    }
  }

  lemma AdminWriteKeepsOnce(cfg: Config, s: Service, k: nat, at: Time)
    requires Once(cfg, s) && RowsOk(s) && OnTime(s) && Allowed(s, AdminWrite(k, at))
    ensures Once(cfg, Next(cfg, s, AdminWrite(k, at)))
    ensures Next(cfg, s, AdminWrite(k, at)).row == s.row
  {
    if k in s.admins && s.admins[k].t0 <= at <= s.now {
      assert CallOk(s, s.admins[k]);
      AdminWriteIsIdle(s, s.admins[k], at);
      var t := Next(cfg, s, AdminWrite(k, at));
      RowStaysTelling(cfg, s, t);
      forall v | v in t.phases ensures PhaseOk(cfg, t, v, t.phases[v]) {
        assert PhaseOk(cfg, s, v, s.phases[v]);
      }
      forall j | j in t.admins ensures CallOk(t, t.admins[j]) {
        assert CallOk(s, s.admins[j]);
      }
    }
  }

  lemma ReleaseIsIdle(s: Service)
    requires OnTime(s)
    ensures ReleaseStuck(s.row, s.now) == s.row
  {
  }

  // ---------- the claim ----------

  /** Within the lease nobody steals: the claim inserts the row, or answers from it. */
  lemma ClaimWithinLease(cfg: Config, s: Service, w: nat, m: Time, rid: Id)
    requires Once(cfg, s) && w in s.phases && w in cfg.requests && s.phases[w].Saw?
    ensures var (outcome, row) := ClaimBy(cfg.requests[w], s.row, s.phases[w], m, rid);
            && (outcome.Acquired? ==> s.row.None? && row.Some? && row.value.status == Pending
                                      && row.value.lockedUntil.Some?
                                      && row.value.fingerprint == cfg.requests[w].fingerprint)
            && (!outcome.Acquired? ==> row == s.row)
            && (outcome.Replay? ==> s.row.Some? && s.row.value.status != Pending
                                    && s.row.value.response == Some(outcome.response))
  {
    var p := s.phases[w];
    assert PhaseOk(cfg, s, w, p);
    if p.seen.Some? {
      assert SeenOk(s.row, p.seen.value, p.t0);
      assert !Decide(p.seen.value, cfg.requests[w].fingerprint, p.t0).Steal?;
    }
  }

  lemma BirthKeepsOnce(cfg: Config, s: Service, w: nat, row: KeyRow, t: Service)
    requires Once(cfg, s) && s.row.None? && w in s.phases && w in cfg.requests
    requires row.status == Pending && row.lockedUntil.Some? && row.fingerprint == cfg.requests[w].fingerprint
    requires t == At(s, w, Holding).(row := Some(row), acquired := s.acquired + [w])
    ensures Once(cfg, t)
  {
    forall v | v in t.phases ensures PhaseOk(cfg, t, v, t.phases[v]) {
      if v != w {
        assert PhaseOk(cfg, s, v, s.phases[v]);
      }
    }
    forall k | k in t.admins ensures CallOk(t, t.admins[k]) {
      assert CallOk(s, s.admins[k]);
    }
  }

  lemma WriteClaimKeepsOnce(cfg: Config, s: Service, w: nat, m: Time, rid: Id)
    requires Once(cfg, s) && w in s.phases && w in cfg.requests && s.phases[w].Saw?
    ensures Once(cfg, WriteClaimStep(cfg, s, w, m, rid))
    ensures s.row.Some? ==> WriteClaimStep(cfg, s, w, m, rid).row == s.row
  {
    if s.phases[w].t0 <= m <= s.now {
      ClaimWithinLease(cfg, s, w, m, rid);
      var (outcome, row) := ClaimBy(cfg.requests[w], s.row, s.phases[w], m, rid);
      var t := WriteClaimStep(cfg, s, w, m, rid);
      if outcome.Acquired? {
        BirthKeepsOnce(cfg, s, w, row.value, t);
      } else {
        assert s.acquired + [] == s.acquired;
        MoveKeepsOnce(cfg, s, t, w);
      }
    }
  }

  // ---------- execution and recording ----------

  /** The appender is the only worker past the claim, so its new phase and its payment disturb nobody. */
  lemma ExecutionKeepsOnce(cfg: Config, s: Service, w: nat, t: Service)
    requires Once(cfg, s) && w in s.phases && s.acquired == [w] && Unfinished(s)
    requires t.row == s.row && t.acquired == s.acquired && t.now == s.now && t.admins == s.admins
    requires t.phases.Keys == s.phases.Keys && (forall v :: v in s.phases && v != w ==> t.phases[v] == s.phases[v])
    requires |t.executed| <= 1 && PhaseOk(cfg, t, w, t.phases[w])
    ensures Once(cfg, t)
  {
    forall v | v in t.phases ensures PhaseOk(cfg, t, v, t.phases[v]) {
      if v != w {
        assert PhaseOk(cfg, s, v, s.phases[v]);
      }
    }
    forall k | k in t.admins ensures CallOk(t, t.admins[k]) {
      assert CallOk(s, s.admins[k]);
    }
  }

  lemma AppendKeepsOnce(cfg: Config, s: Service, w: nat, stamps: seq<EventStore.Stamp>)
    requires Once(cfg, s) && w in s.phases && s.phases[w].Opened? && w in cfg.requests
    ensures Once(cfg, AppendStep(cfg, s, w, stamps))
  {
    var t := AppendStep(cfg, s, w, stamps);
    assert PhaseOk(cfg, s, w, s.phases[w]);
    if t != s {
      ExecutionKeepsOnce(cfg, s, w, t);
    }
  }

  lemma ReadKeepsOnce(cfg: Config, s: Service, w: nat, call: Call)
    requires Once(cfg, s) && OnTime(s) && w in s.phases && w in cfg.requests
    ensures Once(cfg, At(s, w, AfterRead(cfg, s, w, call)))
  {
    assert PhaseOk(cfg, s, w, s.phases[w]);
    MoveKeepsOnce(cfg, s, At(s, w, AfterRead(cfg, s, w, call)), w);
  }

  lemma OpenKeepsOnce(cfg: Config, s: Service, w: nat, paymentId: Id, eventId: Id, at: Time)
    requires Once(cfg, s) && w in s.phases && w in cfg.requests && s.phases[w].Holding?
    ensures Once(cfg, OpenStep(cfg, s, w, paymentId, eventId, at))
  {
    assert PhaseOk(cfg, s, w, s.phases[w]);
    MoveKeepsOnce(cfg, s, OpenStep(cfg, s, w, paymentId, eventId, at), w);
  }

  /** The one recorder finishes the row it read; everybody else's view of the row stays right. */
  lemma WriteRecordKeepsOnce(cfg: Config, s: Service, w: nat, reply: bool)
    requires Once(cfg, s) && w in s.phases && w in cfg.requests && s.phases[w].Recording?
    ensures Once(cfg, WriteRecordStep(s, w, reply))
  {
    assert PhaseOk(cfg, s, w, s.phases[w]);
    var t := WriteRecordStep(s, w, reply);
    assert Tells(cfg, t, t.row.value, s.phases[w].outcome);
    forall v | v in t.phases ensures PhaseOk(cfg, t, v, t.phases[v]) {
      if v != w {
        assert PhaseOk(cfg, s, v, s.phases[v]);
      }
    }
    forall k | k in t.admins ensures CallOk(t, t.admins[k]) {
      assert CallOk(s, s.admins[k]);
    }
  }

  lemma WorkerKeepsOnce(cfg: Config, s: Service, w: nat, call: Call)
    requires Once(cfg, s) && OnTime(s)
    ensures Once(cfg, WorkerStep(cfg, s, w, call))
  {
    if w in s.phases && w in cfg.requests {
      var p := s.phases[w];
      match call {
        case WriteClaim(m, rid) => if p.Saw? { WriteClaimKeepsOnce(cfg, s, w, m, rid); }
        case OpenPayment(id, e, at) => if p.Holding? { OpenKeepsOnce(cfg, s, w, id, e, at); }
        case AppendPayment(stamps) => if p.Opened? { AppendKeepsOnce(cfg, s, w, stamps); }
        case WriteRecord(reply) => if p.Recording? { WriteRecordKeepsOnce(cfg, s, w, reply); }
        case _ => ReadKeepsOnce(cfg, s, w, call);
      }
    }
  }

  lemma StepKeepsOnce(cfg: Config, s: Service, step: Step)
    requires Once(cfg, s) && RowsOk(s) && OnTime(s) && Allowed(s, step)
    ensures Once(cfg, Next(cfg, s, step))
  {
    match step {
      case Do(w, call) => WorkerKeepsOnce(cfg, s, w, call);
      case AdminRead(k, op, t0) => AdminReadKeepsOnce(cfg, s, k, op, t0);
      case AdminWrite(k, at) => AdminWriteKeepsOnce(cfg, s, k, at);
      case Release => ReleaseIsIdle(s);
      case Tick(elapsed) => IdleKeepsOnce(cfg, s, Next(cfg, s, step));
      case Side(_) => IdleKeepsOnce(cfg, s, Next(cfg, s, step));
      case AdminCreate(_, _, _) => IdleKeepsOnce(cfg, s, Next(cfg, s, step));
      case Delete => IdleKeepsOnce(cfg, s, Next(cfg, s, step));
      case Cleanup(_) => IdleKeepsOnce(cfg, s, Next(cfg, s, step));
    }
  }

  lemma IdleKeepsOnce(cfg: Config, s: Service, t: Service)
    requires Once(cfg, s)
    requires t.row == s.row && t.acquired == s.acquired && t.executed == s.executed && t.now >= s.now
    requires t.admins == s.admins && t.phases == s.phases
    ensures Once(cfg, t)
  {
    RowStaysTelling(cfg, s, t);
    forall v | v in t.phases ensures PhaseOk(cfg, t, v, t.phases[v]) {
      assert PhaseOk(cfg, s, v, s.phases[v]);
    }
    forall k | k in t.admins ensures CallOk(t, t.admins[k]) {
      assert CallOk(s, s.admins[k]);
    }
  }

  lemma {:induction false} TimelyRunsAreOnce(cfg: Config, now: Time, steps: seq<Step>)
    requires Timely(cfg, now, steps)
    ensures Once(cfg, Play(cfg, now, steps))
  {
    if steps != [] {
      var init := steps[..|steps| - 1];
      TimelyRunsAreOnce(cfg, now, init);
      EveryRowIsOk(cfg, now, init);
      StepKeepsOnce(cfg, Play(cfg, now, init), steps[|steps| - 1]);
    }
  }

  /**
    Execute at most once. Any number of workers, interleaved call by call with each other, with crashes, with the rest
    of the write side and with lock, force-unlock and stuck-lock release: as long as no pending row outlives its lease,
    at most one worker ever acquires the key and at most one payment is stored under it. A finished key holds that
    worker's own outcome, which says what was stored, and this is what every replay returns.
   */
  lemma ExecuteAtMostOnce(cfg: Config, now: Time, steps: seq<Step>)
    requires Timely(cfg, now, steps)
    ensures |Play(cfg, now, steps).acquired| <= 1 && |Play(cfg, now, steps).executed| <= 1
    ensures var s := Play(cfg, now, steps);
            s.row.Some? && s.row.value.status != Pending ==> exists o :: Tells(cfg, s, s.row.value, o)
    ensures var s := Play(cfg, now, steps);
            forall w, r :: (w in s.phases && s.phases[w] == Done(Replayed(r)))
                           ==> (s.row.Some? && s.row.value.status != Pending && s.row.value.response == Some(r))
  {
    TimelyRunsAreOnce(cfg, now, steps);
    var s := Play(cfg, now, steps);
    forall w | w in s.phases ensures PhaseOk(cfg, s, w, s.phases[w]) {
    }
  }

  /** Once finished, the row is never written again in a timely run. */
  lemma FinishedRowIsFixed(cfg: Config, now: Time, steps: seq<Step>, step: Step)
    requires Timely(cfg, now, steps) && Allowed(Play(cfg, now, steps), step)
    requires Play(cfg, now, steps).row.Some? && Play(cfg, now, steps).row.value.status != Pending
    ensures Play(cfg, now, steps + [step]).row == Play(cfg, now, steps).row
  {
    var s := Play(cfg, now, steps);
    TimelyRunsAreOnce(cfg, now, steps);
    EveryRowIsOk(cfg, now, steps);
    assert (steps + [step])[..|steps|] == steps;
    match step {
      case Do(w, call) =>
        if w in s.phases && w in cfg.requests {
          assert PhaseOk(cfg, s, w, s.phases[w]);
          if call.WriteClaim? && s.phases[w].Saw? {
            WriteClaimKeepsOnce(cfg, s, w, call.m, call.rid);
          }
        }
      case AdminWrite(k, at) => AdminWriteKeepsOnce(cfg, s, k, at);
      case Release => ReleaseIsIdle(s);
      case _ =>
    }
  }

  /**
    Replay. In a timely run whose key is finished and unexpired: the fast path gives every request the recorded
    response, whatever its fingerprint; a claim that read the finished row replays it to the same payload and rejects
    any other.
   */
  lemma LaterRequestsReplay(cfg: Config, now: Time, steps: seq<Step>, w: nat, m: Time, rid: Id)
    requires Timely(cfg, now, steps)
    requires Play(cfg, now, steps).row.Some? && Play(cfg, now, steps).row.value.status != Pending
    requires w in Play(cfg, now, steps).phases && w in cfg.requests
    ensures var s := Play(cfg, now, steps);
            var r := s.row.value;
            && r.response.Some?
            && (s.phases[w].Start? && s.now < r.expiresAt ==>
                  Next(cfg, s, Do(w, Look)) == At(s, w, Done(Replayed(r.response.value))))
            && (s.phases[w].Saw? && s.phases[w].seen == s.row && s.phases[w].t0 < r.expiresAt
                && s.phases[w].t0 <= m <= s.now ==>
                  Next(cfg, s, Do(w, WriteClaim(m, rid))) ==
                  At(s, w, Done(if r.fingerprint == cfg.requests[w].fingerprint then Replayed(r.response.value)
                                else Rejected(FingerprintMismatch))))
  {
    EveryRowIsOk(cfg, now, steps);
    var s := Play(cfg, now, steps);
    assert s.acquired + [] == s.acquired;
  }

  // ---------- why the lease matters ----------

  lemma PlaySnoc(cfg: Config, now: Time, steps: seq<Step>, step: Step)
    ensures Play(cfg, now, steps + [step]) == Next(cfg, Play(cfg, now, steps), step)
  {
    assert (steps + [step])[..|steps|] == steps;
  }

  /**
    Two waiting workers read the same row, then both write: the row lock of the read is gone by the time of the write.
   */
  function BothClaim(w: nat, v: nat, at: Time): seq<Step> {
    [Do(w, BeginClaim), Do(v, BeginClaim), Do(w, ReadClaim), Do(v, ReadClaim),
     Do(w, WriteClaim(at, 0)), Do(v, WriteClaim(at, 0))]
  }

  ghost predicate Lapsed(cfg: Config, s: Service, w: nat, v: nat) {
    && w != v && w in cfg.requests && v in cfg.requests && w in s.phases && v in s.phases
    && s.row.Some? && s.row.value.status == Pending && IsLockExpired(s.row.value, s.now)
    && s.now < s.row.value.expiresAt
    && cfg.requests[w].fingerprint == cfg.requests[v].fingerprint == s.row.value.fingerprint
  }

  /** Both workers have come out of the row lock with the same row in hand. */
  function BothSaw(s: Service, w: nat, v: nat): Service
    requires w in s.phases && v in s.phases
  {
    At(At(s, w, Saw(s.now, s.row)), v, Saw(s.now, s.row))
  }

  lemma BothBegin(cfg: Config, s: Service, w: nat, v: nat)
    requires Lapsed(cfg, s, w, v) && s.phases[w].Looked? && s.phases[v].Looked?
    ensures Next(cfg, Next(cfg, s, Do(w, BeginClaim)), Do(v, BeginClaim))
         == At(At(s, w, Claiming(s.now)), v, Claiming(s.now))
  {
  }

  lemma BothRead(cfg: Config, s: Service, w: nat, v: nat)
    requires Lapsed(cfg, s, w, v)
    requires s.phases[w] == Claiming(s.now) && s.phases[v] == Claiming(s.now)
    ensures Next(cfg, Next(cfg, s, Do(w, ReadClaim)), Do(v, ReadClaim)) == BothSaw(s, w, v)
  {
  }

  lemma BothSteal(cfg: Config, s: Service, w: nat, v: nat)
    requires Lapsed(cfg, s, w, v)
    requires s.phases[w] == Saw(s.now, s.row) && s.phases[v] == Saw(s.now, s.row)
    ensures Next(cfg, Next(cfg, s, Do(w, WriteClaim(s.now, 0))), Do(v, WriteClaim(s.now, 0))).acquired
         == s.acquired + [w, v]
  {
    var t := Next(cfg, s, Do(w, WriteClaim(s.now, 0)));
    assert t.acquired == s.acquired + [w];
    assert t.row.value.status == Pending;
  }

  lemma PlayReaches(cfg: Config, now: Time, steps: seq<Step>, s: Service, step: Step, t: Service)
    requires Play(cfg, now, steps) == s && Next(cfg, s, step) == t
    ensures Play(cfg, now, steps + [step]) == t
  {
    PlaySnoc(cfg, now, steps, step);
  }

  lemma PlayTwice(cfg: Config, now: Time, steps: seq<Step>, a: Step, b: Step, s: Service, t: Service, u: Service)
    requires Play(cfg, now, steps) == s && Next(cfg, s, a) == t && Next(cfg, t, b) == u
    ensures Play(cfg, now, steps + [a, b]) == u
  {
    PlayReaches(cfg, now, steps, s, a, t);
    PlayReaches(cfg, now, steps + [a], t, b, u);
    assert steps + [a, b] == steps + [a] + [b];
  }

  lemma BothReachTheRow(cfg: Config, now: Time, steps: seq<Step>, s: Service, w: nat, v: nat)
    requires s == Play(cfg, now, steps) && Lapsed(cfg, s, w, v) && s.phases[w].Looked? && s.phases[v].Looked?
    ensures Play(cfg, now, steps + BothClaim(w, v, s.now)[..4])
         == BothSaw(At(At(s, w, Claiming(s.now)), v, Claiming(s.now)), w, v)
  {
    var m := BothClaim(w, v, s.now);
    var s2 := At(At(s, w, Claiming(s.now)), v, Claiming(s.now));
    BothBegin(cfg, s, w, v);
    BothRead(cfg, s2, w, v);
    PlayTwice(cfg, now, steps, m[0], m[1], s, Next(cfg, s, m[0]), s2);
    PlayTwice(cfg, now, steps + [m[0], m[1]], m[2], m[3], s2, Next(cfg, s2, m[2]), BothSaw(s2, w, v));
    assert steps + m[..4] == steps + [m[0], m[1]] + [m[2], m[3]];
  }

  lemma BothWrite(cfg: Config, now: Time, steps: seq<Step>, s: Service, w: nat, v: nat)
    requires s == Play(cfg, now, steps) && Lapsed(cfg, s, w, v)
    requires s.phases[w] == Saw(s.now, s.row) && s.phases[v] == Saw(s.now, s.row)
    ensures Play(cfg, now, steps + BothClaim(w, v, s.now)[4..]).acquired == s.acquired + [w, v]
  {
    var m := BothClaim(w, v, s.now);
    var t := Next(cfg, s, m[4]);
    BothSteal(cfg, s, w, v);
    PlayTwice(cfg, now, steps, m[4], m[5], s, t, Next(cfg, t, m[5]));
    assert m[4..] == [m[4], m[5]];
  }

  /**
    The condition is needed: in any reachable state whose pending row has lost its lease, any two workers waiting with
    its payload can both acquire the key.
   */
  lemma LapsedLeaseIsStolenTwice(cfg: Config, now: Time, steps: seq<Step>, w: nat, v: nat)
    requires Lapsed(cfg, Play(cfg, now, steps), w, v)
    requires Play(cfg, now, steps).phases[w].Looked? && Play(cfg, now, steps).phases[v].Looked?
    ensures var s := Play(cfg, now, steps);
            Play(cfg, now, steps + BothClaim(w, v, s.now)).acquired == s.acquired + [w, v]
  {
    var s := Play(cfg, now, steps);
    var m := BothClaim(w, v, s.now);
    BothReachTheRow(cfg, now, steps, s, w, v);
    var s4 := BothSaw(At(At(s, w, Claiming(s.now)), v, Claiming(s.now)), w, v);
    BothWrite(cfg, now, steps + m[..4], s4, w, v);
    assert steps + m == steps + m[..4] + m[4..];
  }
}
