/** The idempotency key of one (key, user): its state machine, and the repository's calls on its row. */
module Idempotency {
  import opened Basics

  const LEASE_SECONDS: nat := 30
  const DAY: Time := 24 * 3600 * SECOND

  datatype KeyStatus = Pending | Completed | Failed

  datatype ResponseBody = PaymentBody(paymentId: Id, amount: int, currency: string) | ErrorBody(error: string)

  datatype Response = Response(statusCode: int, body: ResponseBody)

  /** rid is the row's primary key: it tells a row from one created after its deletion. */
  datatype KeyRow = KeyRow(
    rid: Id, fingerprint: string, expiresAt: Time,
    status: KeyStatus, response: Option<Response>,
    lockedUntil: Option<Time>, lockedBy: Option<string>)

  datatype KeyError = InvalidTransition | StillLocked

  // ---------- the key's own rules ----------

  function IsExpired(r: KeyRow, now: Time): bool {
    now >= r.expiresAt
  }

  function IsLockExpired(r: KeyRow, now: Time): bool {
    r.lockedUntil.None? || now >= r.lockedUntil.value
  }

  /** The replayable response: of a finished key, until it expires. The fingerprint is not looked at. */
  function ReplayResponse(r: KeyRow, now: Time): Option<Response> {
    if IsExpired(r, now) then None
    else if r.status == Completed || r.status == Failed then r.response
    else None
  }

  /** now.replace(microsecond=0) */
  function WholeSecond(now: Time): Time {
    now - now % SECOND
  }

  function MarkInProgress(r: KeyRow, locker: string, lease: nat, now: Time): Result<KeyRow, KeyError> {
    if r.status != Pending then Err(InvalidTransition)
    else if r.lockedUntil.Some? && !IsLockExpired(r, now) then Err(StillLocked)
    else Ok(r.(lockedUntil := Some(WholeSecond(now) + lease * SECOND), lockedBy := Some(locker)))
  }

  /** record_success and record_failure. */
  function Finish(r: KeyRow, to: KeyStatus, response: Response): Result<KeyRow, KeyError>
    requires to != Pending
  {
    if r.status != Pending then Err(InvalidTransition)
    else Ok(r.(status := to, response := Some(response), lockedUntil := None, lockedBy := None))
  }

  class IdempotencyKey {
    const rid: Id
    const fingerprint: string
    const expiresAt: Time
    var status: KeyStatus
    var response: Option<Response>
    var lockedUntil: Option<Time>
    var lockedBy: Option<string>

    function View(): KeyRow
      reads this
    {
      KeyRow(rid, fingerprint, expiresAt, status, response, lockedUntil, lockedBy)
    }

    constructor (r: KeyRow)
      ensures View() == r
    {
      rid, fingerprint, expiresAt := r.rid, r.fingerprint, r.expiresAt;
      status, response, lockedUntil, lockedBy := r.status, r.response, r.lockedUntil, r.lockedBy;
    }

    method Mark(locker: string, lease: nat, now: Time) returns (error: Option<KeyError>)
      modifies this
      ensures match MarkInProgress(old(View()), locker, lease, now)
              case Ok(r) => error.None? && View() == r
              case Err(e) => error == Some(e) && View() == old(View())
    {
      if status != Pending {
        return Some(InvalidTransition);
      }
      if lockedUntil.Some? && now < lockedUntil.value {
        return Some(StillLocked);
      }
      lockedUntil := Some(now - now % SECOND + lease * SECOND);
      lockedBy := Some(locker);
      error := None;
    }

    method ClearLock()
      modifies this`lockedUntil, this`lockedBy
      ensures lockedUntil.None? && lockedBy.None?
    {
      lockedUntil, lockedBy := None, None;
    }

    method Record(to: KeyStatus, resp: Response) returns (error: Option<KeyError>)
      requires to != Pending
      modifies this
      ensures match Finish(old(View()), to, resp)
              case Ok(r) => error.None? && View() == r
              case Err(e) => error == Some(e) && View() == old(View())
    {
      if status != Pending {
        return Some(InvalidTransition);
      }
      status := to;
      response := Some(resp);
      ClearLock();
      error := None;
    }
  }

  // ---------- the table ----------

  /** no_locks_on_terminal_states */
  predicate ConstraintHolds(r: KeyRow) {
    r.status == Pending || (r.lockedUntil.None? && r.lockedBy.None?)
  }

  datatype LockWrite = Written | NoSuchRow | RefusedByConstraint

  /** save(update_fields=[locked_until, locked_by]): an UPDATE by primary key under the check constraint. */
  function WriteLock(row: Option<KeyRow>, rid: Id, until: Option<Time>, holder: Option<string>)
    : (LockWrite, Option<KeyRow>)
  {
    if row.None? || row.value.rid != rid then (NoSuchRow, row)
    else
      var r := row.value.(lockedUntil := until, lockedBy := holder);
      if ConstraintHolds(r) then (Written, Some(r)) else (RefusedByConstraint, row)
  }

  /** update(): whatever the row has become, every field but the primary key is overwritten from the image. */
  function WriteImage(row: Option<KeyRow>, image: KeyRow): Option<KeyRow>
    requires row.Some?
  {
    Some(image.(rid := row.value.rid))
  }

  // ---------- claim_or_replay ----------

  datatype Reason = KeyExpired | FingerprintMismatch | AlreadyLocked

  datatype ClaimOutcome = Acquired(until: Time) | Replay(response: Response) | Conflict(reason: Reason) | ClaimRaised

  /** The decision taken on the row as it was read, at the time taken before reading it. */
  datatype Decision = Reply(outcome: ClaimOutcome) | Steal

  function Decide(seen: KeyRow, fingerprint: string, t0: Time): Decision {
    if seen.expiresAt <= t0 then Reply(Conflict(KeyExpired))
    else if seen.status != Pending then
      if seen.fingerprint != fingerprint then Reply(Conflict(FingerprintMismatch))
      else if seen.response.None? then Reply(ClaimRaised)
      else Reply(Replay(seen.response.value))
    else if seen.fingerprint != fingerprint then Reply(Conflict(FingerprintMismatch))
    else if seen.lockedUntil.Some? && seen.lockedUntil.value > t0 then Reply(Conflict(AlreadyLocked))
    else Steal
  }

  function NewKey(rid: Id, fingerprint: string, expiresAt: Time): KeyRow {
    KeyRow(rid, fingerprint, expiresAt, Pending, None, None, None)
  }

  /** The row of a first use: created pending and at once marked in progress, at time m. */
  function ClaimedRow(rid: Id, fingerprint: string, locker: string, t0: Time, m: Time): KeyRow {
    NewKey(rid, fingerprint, t0 + DAY).(
      lockedUntil := Some(WholeSecond(m) + LEASE_SECONDS * SECOND), lockedBy := Some(locker))
  }

  /**
    Everything after the read. `seen` is what the read at or after t0 returned, `row` what the table holds by the time
    of the write: the row lock taken for the read has been released in between.
   */
  function FinishClaim(row: Option<KeyRow>, seen: Option<KeyRow>, fingerprint: string, locker: string,
                       t0: Time, m: Time, rid: Id): (ClaimOutcome, Option<KeyRow>) {
    if seen.None? then
      if t0 + DAY <= m then (ClaimRaised, row)
      else if row.Some? then (ClaimRaised, row)
      else
        var r := ClaimedRow(rid, fingerprint, locker, t0, m);
        (Acquired(r.lockedUntil.value), Some(r))
    else
      match Decide(seen.value, fingerprint, t0)
      case Reply(outcome) => (outcome, row)
      case Steal =>
        var until := t0 + LEASE_SECONDS * SECOND;
        var (w, after) := WriteLock(row, seen.value.rid, Some(until), Some(locker));
        (if w == Written then Acquired(until) else ClaimRaised, after)
  }

  /**
    The lease of whoever acquires the key: a pending row carrying the caller's name, for thirty seconds at most; cutting
    the time down to whole seconds costs a first use less than one of them. A first use writes a new row; a steal writes
    the lock fields of the very row that was read, and nothing else.
   */
  lemma AcquiredLease(row: Option<KeyRow>, seen: Option<KeyRow>, fingerprint: string, locker: string,
                      t0: Time, m: Time, rid: Id)
    requires t0 <= m
    ensures var (claim, after) := FinishClaim(row, seen, fingerprint, locker, t0, m, rid);
            claim.Acquired? ==>
              && after.Some? && after.value.status == Pending && after.value.lockedBy == Some(locker)
              && after.value.lockedUntil == Some(claim.until) && claim.until <= m + 30 * SECOND
              && (seen.None? ==> m + 29 * SECOND < claim.until && after.value.expiresAt == t0 + 24 * 3600 * SECOND)
              && (seen.Some? ==> seen.value.lockedUntil.None? || seen.value.lockedUntil.value <= t0)
              && (seen.None? ==> row.None? && after.value.fingerprint == fingerprint)
              && (seen.Some? ==> row.Some? && row.value.rid == seen.value.rid
                                 && after == Some(row.value.(lockedUntil := Some(claim.until), lockedBy := Some(locker))))
  {
    assert 0 <= m % SECOND < SECOND;
  }

  /** No lock beyond the time taken before the read. */
  predicate Unlocked(x: KeyRow, t0: Time) {
    x.lockedUntil.None? || x.lockedUntil.value <= t0
  }

  /**
    Every answer of the claim, by the fields of the row it read, whatever the table holds by the time of its write: only
    a key that is unexpired, of the same payload, pending and without a lock beyond the time taken before the read is
    stolen, and only if that very row is still there and pending.
   */
  lemma ClaimAnswers(row: Option<KeyRow>, x: KeyRow, fingerprint: string, locker: string, t0: Time, m: Time, rid: Id)
    requires x.status != Pending ==> x.response.Some?
    ensures var (claim, after) := FinishClaim(row, Some(x), fingerprint, locker, t0, m, rid);
            && (claim == Conflict(KeyExpired) <==> x.expiresAt <= t0)
            && (claim == Conflict(FingerprintMismatch) <==> t0 < x.expiresAt && x.fingerprint != fingerprint)
            && (claim == Conflict(AlreadyLocked) <==>
                  t0 < x.expiresAt && x.fingerprint == fingerprint && x.status == Pending && !Unlocked(x, t0))
            && (claim.Replay? <==> t0 < x.expiresAt && x.fingerprint == fingerprint && x.status != Pending)
            && (claim.Replay? ==> Some(claim.response) == x.response)
            && (claim.Acquired? <==>
                  && t0 < x.expiresAt && x.fingerprint == fingerprint && x.status == Pending && Unlocked(x, t0)
                  && row.Some? && row.value.rid == x.rid && row.value.status == Pending)
            && (!claim.Acquired? ==> after == row)
  {
  }

  /** A key that was not there when it was read is inserted, unless another request was faster or a day has passed. */
  lemma FirstUseAnswers(row: Option<KeyRow>, fingerprint: string, locker: string, t0: Time, m: Time, rid: Id)
    ensures var (claim, after) := FinishClaim(row, None, fingerprint, locker, t0, m, rid);
            && (claim.Acquired? <==> row.None? && m < t0 + DAY)
            && (!claim.Acquired? ==> claim == ClaimRaised && after == row)
  {
  }

  /** The key's own transitions: each error for its own reason; a lock ends on a whole second, the response is kept. */
  lemma KeyAnswers(r: KeyRow, locker: string, lease: nat, now: Time, to: KeyStatus, response: Response)
    requires to != Pending
    ensures var marked := MarkInProgress(r, locker, lease, now);
            if r.status != Pending then marked == Err(InvalidTransition)
            else if r.lockedUntil.Some? && now < r.lockedUntil.value then marked == Err(StillLocked)
            else
              && marked.Ok? && marked.value.lockedBy == Some(locker) && marked.value.lockedUntil.Some?
              && marked.value == r.(lockedUntil := marked.value.lockedUntil, lockedBy := Some(locker))
              && var until := marked.value.lockedUntil.value;
                 until % SECOND == 0 && now + (lease - 1) * SECOND < until <= now + lease * SECOND
    ensures var done := Finish(r, to, response);
            if r.status != Pending then done == Err(InvalidTransition)
            else done == Ok(KeyRow(r.rid, r.fingerprint, r.expiresAt, to, Some(response), None, None))
  {
    assert 0 <= now % SECOND < SECOND;
  }

  /** The fast path: the response of a finished key, until the very instant it expires. */
  lemma ReplayAnswers(r: KeyRow, now: Time)
    requires r.status == Pending ==> r.response.None?
    ensures ReplayResponse(r, now) == if now < r.expiresAt then r.response else None
  {
  }

  // ---------- record_success and record_failure, up to their write ----------

  /** Read the row, refuse an expired or used key, build the finished image. locked_by is not compared. */
  function PrepareRecord(row: Option<KeyRow>, to: KeyStatus, response: Response, now: Time): Option<KeyRow>
    requires to != Pending
  {
    if row.None? || IsExpired(row.value, now) || row.value.status != Pending then None
    else Some(Finish(row.value, to, response).value)
  }

  /** A response is recorded on a pending key that has not expired, whoever holds its lock, and on no other. */
  lemma RecordAnswers(row: Option<KeyRow>, to: KeyStatus, response: Response, now: Time)
    requires to != Pending
    ensures PrepareRecord(row, to, response, now)
         == if row.Some? && row.value.status == Pending && now < row.value.expiresAt
            then Some(KeyRow(row.value.rid, row.value.fingerprint, row.value.expiresAt, to, Some(response), None, None))
            else None
  {
  }

  // ---------- the administrative calls ----------

  datatype AdminOp = LockOp(locker: string, seconds: nat) | UnlockOp | ForceUnlockOp

  /** The checks of lock, unlock and force_unlock on the row they read; lock compares with the time before its read. */
  predicate AdminMay(op: AdminOp, seen: KeyRow, t0: Time, at: Time) {
    match op
    case LockOp(_, _) =>
      && seen.expiresAt > t0 && seen.status == Pending
      && !(seen.lockedUntil.Some? && seen.lockedUntil.value > t0)
    case UnlockOp => seen.lockedUntil.Some? && seen.lockedUntil.value > at
    case ForceUnlockOp => !(seen.lockedUntil.Some? && seen.lockedUntil.value > at)
  }

  function AdminEffect(row: Option<KeyRow>, op: AdminOp, seen: Option<KeyRow>, t0: Time, at: Time): Option<KeyRow> {
    if seen.None? || !AdminMay(op, seen.value, t0, at) then row
    else
      match op
      case LockOp(locker, seconds) =>
        WriteLock(row, seen.value.rid, Some(t0 + seconds * SECOND), Some(locker)).1
      case _ => WriteLock(row, seen.value.rid, None, None).1
  }

  /** The row is still the one that was read. */
  predicate Still(row: Option<KeyRow>, x: KeyRow) {
    row.Some? && row.value.rid == x.rid
  }

  /**
    What the administrator's calls do, by the row they read and the row they meet: lock takes an unexpired pending key
    without a live lock, unlock clears a live lock, force_unlock clears anything but one; other rows stay as they are.
   */
  lemma AdminAnswers(row: Option<KeyRow>, x: KeyRow, locker: string, seconds: nat, t0: Time, at: Time)
    ensures AdminEffect(row, LockOp(locker, seconds), Some(x), t0, at)
         == if Still(row, x) && row.value.status == Pending && x.status == Pending && t0 < x.expiresAt && Unlocked(x, t0)
            then Some(row.value.(lockedUntil := Some(t0 + seconds * 1_000_000), lockedBy := Some(locker)))
            else row
    ensures AdminEffect(row, UnlockOp, Some(x), t0, at)
         == if Still(row, x) && x.lockedUntil.Some? && at < x.lockedUntil.value
            then Some(row.value.(lockedUntil := None, lockedBy := None)) else row
    ensures AdminEffect(row, ForceUnlockOp, Some(x), t0, at)
         == if Still(row, x) && (x.lockedUntil.None? || x.lockedUntil.value <= at)
            then Some(row.value.(lockedUntil := None, lockedBy := None)) else row
  {
  }

  /** release_stuck_idempotency_locks */
  function ReleaseStuck(row: Option<KeyRow>, now: Time): Option<KeyRow> {
    if row.Some? && row.value.status == Pending && row.value.lockedUntil.Some? && row.value.lockedUntil.value < now
    then Some(row.value.(lockedUntil := None, lockedBy := None))
    else row
  }

  function DeleteExpired(row: Option<KeyRow>, cutoff: Time): Option<KeyRow> {
    if row.Some? && row.value.expiresAt < cutoff then None else row
  }

  /** Releasing frees exactly the locks of pending keys that ended before now, and no claim from then on can tell. */
  lemma ReleaseIsInvisible(row: Option<KeyRow>, now: Time, fingerprint: string, locker: string, t0: Time, m: Time, rid: Id)
    requires now <= t0
    ensures var freed := ReleaseStuck(row, now);
            && (freed != row ==> row.Some? && freed == Some(row.value.(lockedUntil := None, lockedBy := None)))
            && (row.Some? && row.value.status == Pending && row.value.lockedUntil.Some? ==>
                  (row.value.lockedUntil.value < now <==> freed != row))
            && (row.Some? && row.value.status != Pending ==> freed == row)
            && var (claim, after) := FinishClaim(row, row, fingerprint, locker, t0, m, rid);
               var (again, later) := FinishClaim(freed, freed, fingerprint, locker, t0, m, rid);
               claim == again && (claim.Acquired? ==> after == later)
  {
  }

  /** An expired key answers every claim with its expiry until the cleanup reaches it; then it is a key like new. */
  lemma CleanupRevives(x: KeyRow, cutoff: Time, fingerprint: string, locker: string, t0: Time, m: Time, rid: Id)
    requires cutoff <= t0 <= m < t0 + DAY
    ensures var left := DeleteExpired(Some(x), cutoff);
            && (left.None? <==> x.expiresAt < cutoff) && (left.Some? ==> left == Some(x))
            && (left.None? ==>
                  && FinishClaim(Some(x), Some(x), fingerprint, locker, t0, m, rid) == (Conflict(KeyExpired), Some(x))
                  && FinishClaim(left, left, fingerprint, locker, t0, m, rid).0.Acquired?)
    ensures DeleteExpired(None, cutoff) == None
  {
  }

  // ---------- the repository ----------

  /** The table as far as one (key, user) goes: its unique constraint leaves one row at most. */
  class IdempotencyRepository {
    var row: Option<KeyRow>

    constructor ()
      ensures row.None?
    {
      row := None;
    }

    /** create(): False is the IntegrityError of the unique constraint. */
    method Create(r: KeyRow) returns (ok: bool)
      modifies this
      ensures ok <==> old(row).None?
      ensures row == if ok then Some(r) else old(row)
    {
      ok := row.None?;
      if ok {
        row := Some(r);
      }
    }

    method SaveLock(rid: Id, until: Option<Time>, holder: Option<string>) returns (w: LockWrite)
      modifies this
      ensures (w, row) == WriteLock(old(row), rid, until, holder)
    {
      if row.None? || row.value.rid != rid {
        return NoSuchRow;
      }
      if row.value.status != Pending && (until.Some? || holder.Some?) {
        return RefusedByConstraint;
      }
      row := Some(row.value.(lockedUntil := until, lockedBy := holder));
      w := Written;
    }

    /** `between` is the row other calls leave between this call's read and its write. */
    method ClaimOrReplay(fingerprint: string, locker: string, t0: Time, m: Time, rid: Id, between: Option<KeyRow>)
      returns (outcome: ClaimOutcome)
      modifies this
      ensures (outcome, row) == FinishClaim(between, old(row), fingerprint, locker, t0, m, rid)
    {
      var seen := row;
      row := between;
      if seen.None? {
        if t0 + DAY <= m {
          return ClaimRaised;
        }
        var key := new IdempotencyKey(NewKey(rid, fingerprint, t0 + DAY));
        var error := key.Mark(locker, LEASE_SECONDS, m);
        var created := Create(key.View());
        return if created then Acquired(key.lockedUntil.value) else ClaimRaised;
      }
      var r := seen.value;
      if r.expiresAt <= t0 {
        return Conflict(KeyExpired);
      }
      if r.status == Completed || r.status == Failed {
        if r.fingerprint != fingerprint {
          return Conflict(FingerprintMismatch);
        }
        if r.response.None? {
          return ClaimRaised;
        }
        return Replay(r.response.value);
      }
      if r.fingerprint != fingerprint {
        return Conflict(FingerprintMismatch);
      }
      if r.lockedUntil.Some? && r.lockedUntil.value > t0 {
        return Conflict(AlreadyLocked);
      }
      var until := t0 + LEASE_SECONDS * SECOND;
      var w := SaveLock(r.rid, Some(until), Some(locker));
      outcome := if w == Written then Acquired(until) else ClaimRaised;
    }

    /** The service's record_success / record_failure: a read, the key's transition, and update(). */
    method Record(to: KeyStatus, response: Response, now: Time, between: Option<KeyRow>) returns (ok: bool)
      requires to != Pending
      modifies this
      ensures var image := PrepareRecord(old(row), to, response, now);
              && (ok <==> image.Some? && between.Some?)
              && row == if ok then WriteImage(between, image.value) else between
    {
      var seen := row;
      row := between;
      if seen.None? || now >= seen.value.expiresAt || seen.value.status != Pending {
        return false;
      }
      var key := new IdempotencyKey(seen.value);
      var error := key.Record(to, response);
      if row.None? {
        return false;
      }
      row := Some(KeyRow(row.value.rid, key.fingerprint, key.expiresAt, key.status, key.response,
                         key.lockedUntil, key.lockedBy));
      ok := true;
    }

    /** lock, unlock and force_unlock. */
    method Administer(op: AdminOp, t0: Time, at: Time, between: Option<KeyRow>) returns (ok: bool)
      modifies this
      ensures row == AdminEffect(between, op, old(row), t0, at)
      ensures ok <==> old(row).Some? && AdminMay(op, old(row).value, t0, at)
                      && between.Some? && between.value.rid == old(row).value.rid
                      && (op.LockOp? ==> between.value.status == Pending)
    {
      var seen := row;
      row := between;
      if seen.None? {
        return false;
      }
      var w;
      match op {
        case LockOp(locker, seconds) =>
          if seen.value.expiresAt <= t0 || seen.value.status != Pending
             || (seen.value.lockedUntil.Some? && seen.value.lockedUntil.value > t0) {
            return false;
          }
          w := SaveLock(seen.value.rid, Some(t0 + seconds * SECOND), Some(locker));
        case UnlockOp =>
          if seen.value.lockedUntil.None? || seen.value.lockedUntil.value <= at {
            return false;
          }
          w := SaveLock(seen.value.rid, None, None);
        case ForceUnlockOp =>
          if seen.value.lockedUntil.Some? && seen.value.lockedUntil.value > at {
            return false;
          }
          w := SaveLock(seen.value.rid, None, None);
      }
      ok := w == Written;
    }
  }
}
