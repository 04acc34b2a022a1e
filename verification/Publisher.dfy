/** The Kafka publisher: one round over the outbox, dead-marking, and how many rounds drain it. */
module Publisher {
  import opened Basics
  import opened Storage
  import opened Outbox

  const BATCH_LIMIT := 20

  /**
    What happens to one message: it cannot be queued; it finds the buffer full and, after a flush, is refused again,
    which ends the round; it is reported delivered; it is reported undelivered; or no report arrives before the round's
    flush ends.
   */
  datatype Outcome =
    | NotQueued(message: string)
    | Overflow
    | Delivered(at: Time)
    | Undelivered(message: string, at: Time)
    | Unreported

  function Reported(retries: int, r: OutboxRow, message: string, at: Time): OutboxRow {
    var failed := Changed(r, CountFailure(message));
    if failed.retryCount >= retries then Changed(failed, SetDead(at)) else failed
  }

  function Settle(retries: int, r: OutboxRow, o: Outcome): OutboxRow {
    match o
    case NotQueued(message) => Changed(r, CountFailure(message))
    case Overflow => r
    case Delivered(at) => Changed(r, SetPublished(at))
    case Undelivered(message, at) => Reported(retries, r, message, at)
    case Unreported => r
  }

  function Elems(ids: seq<Id>): set<Id> {
    set id | id in ids
  }

  function Ids(rows: seq<OutboxRow>): set<Id> {
    set r | r in rows :: r.id
  }

  function Settled(retries: int, rows: seq<OutboxRow>, done: set<Id>, outcome: Id -> Outcome): (r: seq<OutboxRow>)
    ensures |r| == |rows|
    ensures forall i :: 0 <= i < |rows| ==>
      r[i] == if rows[i].id in done then Settle(retries, rows[i], outcome(rows[i].id)) else rows[i]
  {
    seq(|rows|, i requires 0 <= i < |rows| =>
      if rows[i].id in done then Settle(retries, rows[i], outcome(rows[i].id)) else rows[i])
  }

  function SettleRow(retries: int, rows: seq<OutboxRow>, id: Id, o: Outcome): (r: seq<OutboxRow>)
    ensures |r| == |rows|
    ensures forall i :: 0 <= i < |rows| ==> r[i] == if rows[i].id == id then Settle(retries, rows[i], o) else rows[i]
  {
    seq(|rows|, i requires 0 <= i < |rows| => if rows[i].id == id then Settle(retries, rows[i], o) else rows[i])
  }

  /** How many messages of the batch come before the first one that ends the round. */
  function Reach(batch: seq<OutboxRow>, outcome: Id -> Outcome): (n: nat)
    ensures n <= |batch|
    ensures forall i :: 0 <= i < n ==> !outcome(batch[i].id).Overflow?
    ensures n < |batch| ==> outcome(batch[n].id).Overflow?
  {
    if batch == [] || outcome(batch[0].id).Overflow? then 0 else 1 + Reach(batch[1..], outcome)
  }

  function Taken(rows: seq<OutboxRow>, locked: set<Id>, outcome: Id -> Outcome): seq<OutboxRow> {
    var batch := Batch(Unlocked(rows, locked), BATCH_LIMIT);
    batch[..Reach(batch, outcome)]
  }

  /** One round: every row the round gets to is settled, every other row is left alone. */
  function Round(retries: int, rows: seq<OutboxRow>, locked: set<Id>, outcome: Id -> Outcome): seq<OutboxRow> {
    Settled(retries, rows, Ids(Taken(rows, locked, outcome)), outcome)
  }

  /** The rounds of a publisher that shares its rows with nobody. */
  function Rounds(retries: int, rows: seq<OutboxRow>, outcomes: seq<Id -> Outcome>): seq<OutboxRow> {
    if outcomes == [] then rows
    else Round(retries, Rounds(retries, rows, outcomes[..|outcomes| - 1]), {}, outcomes[|outcomes| - 1])
  }

  /**
    What one round leaves of one row, by what became of its message. A good report publishes a row once; a bad one is
    counted and buries it at the limit; a message that was not queued is counted only; every other row is left alone.
   */
  lemma RoundAnswers(retries: int, rows: seq<OutboxRow>, locked: set<Id>, outcome: Id -> Outcome, i: nat)
    requires i < |rows|
    ensures |Round(retries, rows, locked, outcome)| == |rows|
    ensures var r, s := rows[i], Round(retries, rows, locked, outcome)[i];
            if r.id !in Ids(Taken(rows, locked, outcome)) then s == r
            else
              match outcome(r.id)
              case Delivered(at) =>
                s == if r.publishedAt.Some? then r else r.(publishedAt := Some(at), processedAt := Some(at))
              case Undelivered(message, at) =>
                && s.retryCount == r.retryCount + 1 && s.errorMessage == Some(message)
                && s.processedAt == (if r.retryCount + 1 >= retries then Some(at) else r.processedAt)
                && s == r.(retryCount := s.retryCount, errorMessage := s.errorMessage, processedAt := s.processedAt)
              case NotQueued(message) => s == r.(retryCount := r.retryCount + 1, errorMessage := Some(message))
              case Overflow => s == r
              case Unreported => s == r
  {
  }

  /** A round takes twenty rows at most, the oldest of those that are due and unlocked, until a refusal ends it. */
  lemma RoundTakesTwenty(rows: seq<OutboxRow>, locked: set<Id>, outcome: Id -> Outcome, r: OutboxRow)
    ensures var taken := Taken(rows, locked, outcome);
            && |taken| <= 20 && (forall x :: x in taken ==> !outcome(x.id).Overflow?)
            && (r in taken ==> r in rows && r.processedAt.None? && r.id !in locked)
            && ((forall x :: x in rows ==> !outcome(x.id).Overflow?) && r in rows && r.processedAt.None?
                && r.id !in locked && r !in taken ==>
                  |taken| == 20 && forall x :: x in taken ==> x.createdAt <= r.createdAt)
  {
    var batch := Batch(Unlocked(rows, locked), BATCH_LIMIT);
    BatchIsTheOldest(rows, locked, BATCH_LIMIT, r);
    if Reach(batch, outcome) < |batch| {
      BatchIsTheOldest(rows, locked, BATCH_LIMIT, batch[Reach(batch, outcome)]);
    } else {
      assert batch[..|batch|] == batch;
    }
  }

  // ---------- the publisher itself ----------

  class OutboxKafkaPublisher {
    const db: Database
    const repo: OutboxRepository
    const retries: int

    constructor (db: Database, retries: int)
      ensures this.db == db && this.retries == retries && fresh(repo) && repo.db == db
    {
      this.db, this.retries := db, retries;
      repo := new OutboxRepository(db);
    }

    /** The delivery callback of one message; false stands for the repository's not-found error. */
    method DeliveryReport(id: Id, o: Outcome) returns (found: bool)
      requires repo.db == db && (o.Delivered? || o.Undelivered?) && Distinct(db.outbox)
      modifies db`outbox
      ensures db.outbox == SettleRow(retries, old(db.outbox), id, o)
      ensures found <==> HasRow(old(db.outbox), id)
    {
      var rows := db.outbox;
      match o {
        case Delivered(at) => found := repo.MarkAsPublished(id, at);
        case Undelivered(message, at) =>
          found := repo.MarkAsFailed(id, message);
          if exists r :: r in db.outbox && r.id == id && r.retryCount >= retries {
            db.outbox := Update(db.outbox, id, SetDead(at));
          }
          ReportedIs(retries, rows, id, message, at);
      }
      assert db.outbox == SettleRow(retries, rows, id, o);
    }

    /** flush: the producer reports on the messages it holds, in the order they were queued. */
    method Flush(held: seq<Id>, outcome: Id -> Outcome, ghost rows: seq<OutboxRow>, ghost done: set<Id>)
      requires repo.db == db && Distinct(rows) && Holds(held, done, outcome)
      requires db.outbox == Settled(retries, rows, done, outcome)
      modifies db`outbox
      ensures db.outbox == Settled(retries, rows, done + Elems(held), outcome)
    {
      assert held[..0] == [];
      for i := 0 to |held|
        invariant db.outbox == Settled(retries, rows, done + Elems(held[..i]), outcome)
      {
        var id := held[i];
        ghost var reported := done + Elems(held[..i]);
        assert id !in reported;
        assert reported + {id} == done + Elems(held[..i + 1]);
        SettledKeepsDistinct(retries, rows, reported, outcome);
        SettleOneMore(retries, rows, reported, outcome, id);
        if !outcome(id).Unreported? {
          var _ := DeliveryReport(id, outcome(id));
        }
      }
      assert held[..|held|] == held;
    }

    /**
      produce, for one event of the batch. A full buffer is flushed first; a message it refuses even then raises out of
      the round, uncounted, when nothing is held any more.
     */
    method Produce(id: Id, held: seq<Id>, outcome: Id -> Outcome, full: bool,
                   ghost rows: seq<OutboxRow>, ghost done: set<Id>)
      returns (holding: seq<Id>, raised: bool, ghost settled: set<Id>)
      requires repo.db == db && Distinct(rows) && Holds(held, done, outcome)
      requires id !in done && id !in held
      requires db.outbox == Settled(retries, rows, done, outcome)
      modifies db`outbox
      ensures db.outbox == Settled(retries, rows, settled, outcome)
      ensures Holds(holding, settled, outcome)
      ensures raised <==> outcome(id).Overflow?
      ensures settled + Elems(holding) == done + Elems(held) + (if raised then {} else {id})
      ensures raised ==> holding == []
    {
      holding, raised, settled := held, false, done;
      match outcome(id) {
        case NotQueued(message) =>
          SettleOneMore(retries, rows, settled, outcome, id);
          var _ := repo.MarkAsFailed(id, message);
          assert db.outbox == SettleRow(retries, Settled(retries, rows, settled, outcome), id, outcome(id));
          settled := settled + {id};
        case Overflow =>
          Flush(held, outcome, rows, done);
          holding, raised, settled := [], true, done + Elems(held);
        case _ =>
          if full {
            Flush(held, outcome, rows, done);
            holding, settled := [], done + Elems(held);
          }
          assert Elems(holding + [id]) == Elems(holding) + {id};
          holding := holding + [id];
      }
    }

    /**
      One round. locked are the rows other publishers hold, full the messages that find the producer's buffer full and
      are queued after a flush: whenever that happens, the round's effect on the outbox is the same.
     */
    method PublishEvents(locked: set<Id>, outcome: Id -> Outcome, full: set<Id>) returns (raised: bool)
      requires repo.db == db && Distinct(db.outbox)
      modifies db`outbox
      ensures db.outbox == Round(retries, old(db.outbox), locked, outcome)
      ensures raised <==> exists r :: r in Batch(Unlocked(old(db.outbox), locked), BATCH_LIMIT)
                                      && outcome(r.id).Overflow?
    {
      ghost var rows := db.outbox;
      var events := repo.GetUnpublished(BATCH_LIMIT, locked);
      BatchIsDistinct(rows, locked, BATCH_LIMIT);
      var held: seq<Id> := [];
      ghost var done := {};
      raised := false;
      var i := 0;
      while i < |events| && !raised
        invariant db.outbox == Settled(retries, rows, done, outcome)
        invariant InRound(events, outcome, i, held, done, raised)
        decreases |events| - i, !raised
      {
        var id := events[i].id;
        IdsSnoc(events, i);
        held, raised, done := Produce(id, held, outcome, id in full, rows, done);
        if !raised {
          i := i + 1;
        }
      }
      RoundReaches(events, outcome, i, held, done, raised);
      if !raised && events != [] {
        Flush(held, outcome, rows, done);
      }
    }
  }

  /**
    Where a round stands: the first i events were taken; their messages are settled or held; the next may have raised.
   */
  ghost predicate InRound(events: seq<OutboxRow>, outcome: Id -> Outcome, i: nat, held: seq<Id>, done: set<Id>,
                          raised: bool) {
    && i <= |events| && Holds(held, done, outcome) && done + Elems(held) == Ids(events[..i])
    && (forall k :: 0 <= k < i ==> !outcome(events[k].id).Overflow?)
    && (raised ==> held == [] && i < |events| && outcome(events[i].id).Overflow?)
  }

  lemma RoundReaches(events: seq<OutboxRow>, outcome: Id -> Outcome, i: nat, held: seq<Id>, done: set<Id>, raised: bool)
    requires InRound(events, outcome, i, held, done, raised) && (raised || i == |events|)
    ensures done + Elems(held) == Ids(events[..Reach(events, outcome)])
    ensures raised ==> done == Ids(events[..Reach(events, outcome)])
    ensures events == [] ==> done == Ids(events[..Reach(events, outcome)])
    ensures raised <==> exists r :: r in events && outcome(r.id).Overflow?
  {
    ReachIs(events, outcome, i);
  }

  lemma ReachIs(batch: seq<OutboxRow>, outcome: Id -> Outcome, n: nat)
    requires n <= |batch| && forall i :: 0 <= i < n ==> !outcome(batch[i].id).Overflow?
    requires n < |batch| ==> outcome(batch[n].id).Overflow?
    ensures Reach(batch, outcome) == n
    ensures n < |batch| <==> exists r :: r in batch && outcome(r.id).Overflow?
  {
    if n < |batch| {
      assert batch[n] in batch;
    }
  }

  /** The messages inside the producer: distinct, accepted, and not reported on yet. */
  ghost predicate Holds(held: seq<Id>, done: set<Id>, outcome: Id -> Outcome) {
    && (forall i, j :: 0 <= i < j < |held| ==> held[i] != held[j])
    && forall id :: id in held ==> id !in done && !outcome(id).NotQueued? && !outcome(id).Overflow?
  }

  lemma IdsSnoc(rows: seq<OutboxRow>, i: nat)
    requires i < |rows| && DistinctIds(rows)
    ensures Ids(rows[..i + 1]) == Ids(rows[..i]) + {rows[i].id} && rows[i].id !in Ids(rows[..i])
  {
    assert rows[..i + 1] == rows[..i] + [rows[i]];
  }

  lemma ReportedIs(retries: int, rows: seq<OutboxRow>, id: Id, message: string, at: Time)
    requires Distinct(rows)
    ensures var failed := Update(rows, id, CountFailure(message));
            var after := if exists r :: r in failed && r.id == id && r.retryCount >= retries
                         then Update(failed, id, SetDead(at)) else failed;
            after == SettleRow(retries, rows, id, Undelivered(message, at))
  {
    var failed := Update(rows, id, CountFailure(message));
    var after := SettleRow(retries, rows, id, Undelivered(message, at));
    if exists r :: r in failed && r.id == id && r.retryCount >= retries {
      var k :| 0 <= k < |failed| && failed[k].id == id && failed[k].retryCount >= retries;
      forall i | 0 <= i < |rows| ensures after[i] == Update(failed, id, SetDead(at))[i] {
        if i < k { assert rows[i].id != rows[k].id; }
        if k < i { assert rows[k].id != rows[i].id; }
      }
    } else {
      forall i | 0 <= i < |rows| ensures after[i] == failed[i] {
        assert failed[i] in failed;
      }
    }
  }

  lemma SettledKeepsDistinct(retries: int, rows: seq<OutboxRow>, done: set<Id>, outcome: Id -> Outcome)
    requires Distinct(rows)
    ensures Distinct(Settled(retries, rows, done, outcome))
  {
    var after := Settled(retries, rows, done, outcome);
    forall i, j | 0 <= i < j < |after|
      ensures after[i].id != after[j].id
      ensures !(after[i].aggregateId == after[j].aggregateId && after[i].version == after[j].version)
    {
      assert rows[i].id != rows[j].id;
    }
  }

  /** Settling one more row is settling it by itself afterwards: reports on different rows commute. */
  lemma SettleOneMore(retries: int, rows: seq<OutboxRow>, done: set<Id>, outcome: Id -> Outcome, id: Id)
    requires id !in done
    ensures SettleRow(retries, Settled(retries, rows, done, outcome), id, outcome(id))
         == Settled(retries, rows, done + {id}, outcome)
    ensures outcome(id).Unreported? ==>
      Settled(retries, rows, done, outcome) == Settled(retries, rows, done + {id}, outcome)
  {
    var first := Settled(retries, rows, done, outcome);
    var both := Settled(retries, rows, done + {id}, outcome);
    forall i | 0 <= i < |rows|
      ensures SettleRow(retries, first, id, outcome(id))[i] == both[i]
      ensures outcome(id).Unreported? ==> first[i] == both[i]
    {
    }
  }

  // ---------- how many rounds ----------

  /**
    The rounds a row can still take: the failures left to it before it is marked dead, at least one, none once
    processed.
   */
  function Urgency(retries: int, r: OutboxRow): nat {
    if r.processedAt.Some? then 0
    else if retries - r.retryCount > 1 then retries - r.retryCount
    else 1
  }

  function Weight(retries: int, rows: seq<OutboxRow>): nat {
    if rows == [] then 0 else Weight(retries, rows[..|rows| - 1]) + Urgency(retries, rows[|rows| - 1])
  }

  /** Failing to queue never buries a row, so it helps only while retries are left. */
  predicate Progresses(retries: int, r: OutboxRow, o: Outcome) {
    match o
    case NotQueued(_) => r.retryCount + 1 < retries
    case Overflow => false
    case Delivered(_) => r.publishedAt.None?
    case Undelivered(_, _) => true
    case Unreported => false
  }

  ghost predicate Moves(retries: int, rows: seq<OutboxRow>, locked: set<Id>, outcome: Id -> Outcome) {
    exists r :: r in Taken(rows, locked, outcome) && Progresses(retries, r, outcome(r.id))
  }

  lemma SettleLightens(retries: int, r: OutboxRow, o: Outcome)
    ensures Urgency(retries, Settle(retries, r, o)) <= Urgency(retries, r)
    ensures r.processedAt.None? ==>
      (Urgency(retries, Settle(retries, r, o)) < Urgency(retries, r) <==> Progresses(retries, r, o))
  {
  }

  ghost predicate SomeLightens(retries: int, rows: seq<OutboxRow>, done: set<Id>, outcome: Id -> Outcome) {
    exists r :: r in rows && r.id in done
                && Urgency(retries, Settle(retries, r, outcome(r.id))) < Urgency(retries, r)
  }

  lemma {:induction false} SettledLightens(retries: int, rows: seq<OutboxRow>, done: set<Id>, outcome: Id -> Outcome)
    ensures Weight(retries, Settled(retries, rows, done, outcome)) <= Weight(retries, rows)
    ensures Weight(retries, Settled(retries, rows, done, outcome)) < Weight(retries, rows)
       <==> SomeLightens(retries, rows, done, outcome)
  {
    if rows != [] {
      var init, last := rows[..|rows| - 1], rows[|rows| - 1];
      SettledLightens(retries, init, done, outcome);
      SettleLightens(retries, last, outcome(last.id));
      assert rows == init + [last];
      assert Settled(retries, rows, done, outcome)[..|init|] == Settled(retries, init, done, outcome);
    }
  }

  lemma TakenIsDue(rows: seq<OutboxRow>, locked: set<Id>, outcome: Id -> Outcome, r: OutboxRow)
    requires r in Taken(rows, locked, outcome)
    ensures r in rows && r.processedAt.None?
  {
    BatchIsTheOldest(rows, locked, BATCH_LIMIT, r);
  }

  lemma TakenById(rows: seq<OutboxRow>, locked: set<Id>, outcome: Id -> Outcome, r: OutboxRow)
    requires Distinct(rows) && r in rows
    ensures r.id in Ids(Taken(rows, locked, outcome)) <==> r in Taken(rows, locked, outcome)
  {
    if r.id in Ids(Taken(rows, locked, outcome)) {
      var x :| x in Taken(rows, locked, outcome) && x.id == r.id;
      TakenIsDue(rows, locked, outcome, x);
      var i :| 0 <= i < |rows| && rows[i] == r;
      var j :| 0 <= j < |rows| && rows[j] == x;
    }
  }

  /** A round never adds weight, and it takes some away exactly when some row it gets to progresses. */
  lemma RoundLightens(retries: int, rows: seq<OutboxRow>, locked: set<Id>, outcome: Id -> Outcome)
    requires Distinct(rows)
    ensures var after := Round(retries, rows, locked, outcome);
            && Weight(retries, after) <= Weight(retries, rows)
            && (Weight(retries, after) < Weight(retries, rows) <==> Moves(retries, rows, locked, outcome))
  {
    var taken := Taken(rows, locked, outcome);
    SettledLightens(retries, rows, Ids(taken), outcome);
    if Moves(retries, rows, locked, outcome) {
      var r :| r in taken && Progresses(retries, r, outcome(r.id));
      TakenIsDue(rows, locked, outcome, r);
      SettleLightens(retries, r, outcome(r.id));
      assert r in rows && r.id in Ids(taken);
    }
    if SomeLightens(retries, rows, Ids(taken), outcome) {
      var r :| r in rows && r.id in Ids(taken)
               && Urgency(retries, Settle(retries, r, outcome(r.id))) < Urgency(retries, r);
      TakenById(rows, locked, outcome, r);
      TakenIsDue(rows, locked, outcome, r);
      SettleLightens(retries, r, outcome(r.id));
      assert r in taken && Progresses(retries, r, outcome(r.id));
    }
  }

  lemma {:induction false} RoundsKeepDistinct(retries: int, rows: seq<OutboxRow>, outcomes: seq<Id -> Outcome>)
    requires Distinct(rows)
    ensures Distinct(Rounds(retries, rows, outcomes))
  {
    if outcomes != [] {
      RoundsKeepDistinct(retries, rows, outcomes[..|outcomes| - 1]);
      var before := Rounds(retries, rows, outcomes[..|outcomes| - 1]);
      SettledKeepsDistinct(retries, before, Ids(Taken(before, {}, outcomes[|outcomes| - 1])), outcomes[|outcomes| - 1]);
    }
  }

  lemma {:induction false} WeightlessIsDrained(retries: int, rows: seq<OutboxRow>)
    ensures Weight(retries, rows) == 0 <==> Unprocessed(rows) == []
  {
    if rows != [] {
      WeightlessIsDrained(retries, rows[..|rows| - 1]);
    }
  }

  /** Every round that finds work gets some row of its batch further. */
  ghost predicate KeepsMoving(retries: int, rows: seq<OutboxRow>, outcomes: seq<Id -> Outcome>)
    decreases |outcomes|
  {
    outcomes != [] ==>
      var before := Rounds(retries, rows, outcomes[..|outcomes| - 1]);
      && KeepsMoving(retries, rows, outcomes[..|outcomes| - 1])
      && (Unprocessed(before) != [] ==> Moves(retries, before, {}, outcomes[|outcomes| - 1]))
  }

  lemma {:induction false} EveryMoveCounts(retries: int, rows: seq<OutboxRow>, outcomes: seq<Id -> Outcome>)
    requires Distinct(rows) && KeepsMoving(retries, rows, outcomes)
    ensures Weight(retries, Rounds(retries, rows, outcomes)) == 0
         || Weight(retries, Rounds(retries, rows, outcomes)) + |outcomes| <= Weight(retries, rows)
    decreases |outcomes|
  {
    if outcomes != [] {
      var before := Rounds(retries, rows, outcomes[..|outcomes| - 1]);
      EveryMoveCounts(retries, rows, outcomes[..|outcomes| - 1]);
      RoundsKeepDistinct(retries, rows, outcomes[..|outcomes| - 1]);
      RoundLightens(retries, before, {}, outcomes[|outcomes| - 1]);
      WeightlessIsDrained(retries, before);
    }
  }

  ghost predicate AlwaysReported(outcomes: seq<Id -> Outcome>) {
    forall k, id :: 0 <= k < |outcomes| ==> outcomes[k](id).Delivered? || outcomes[k](id).Undelivered?
  }

  /** A row is processed exactly when it is published or was given up after enough failures. */
  predicate RowTidy(retries: int, r: OutboxRow) {
    && (r.publishedAt.Some? ==> r.processedAt.Some?)
    && (r.processedAt.Some? && r.publishedAt.None? ==> r.retryCount >= retries)
  }

  ghost predicate Tidy(retries: int, rows: seq<OutboxRow>) {
    forall r :: r in rows ==> RowTidy(retries, r)
  }

  lemma SettleKeepsTidy(retries: int, r: OutboxRow, o: Outcome)
    requires RowTidy(retries, r)
    ensures RowTidy(retries, Settle(retries, r, o))
  {
  }

  lemma {:induction false} RoundsKeepTidy(retries: int, rows: seq<OutboxRow>, outcomes: seq<Id -> Outcome>)
    requires Tidy(retries, rows)
    ensures Tidy(retries, Rounds(retries, rows, outcomes))
  {
    if outcomes != [] {
      var before := Rounds(retries, rows, outcomes[..|outcomes| - 1]);
      RoundsKeepTidy(retries, rows, outcomes[..|outcomes| - 1]);
      var after := Round(retries, before, {}, outcomes[|outcomes| - 1]);
      forall r | r in after ensures RowTidy(retries, r) {
        var i :| 0 <= i < |after| && after[i] == r;
        assert before[i] in before;
        SettleKeepsTidy(retries, before[i], outcomes[|outcomes| - 1](before[i].id));
      }
    }
  }

  lemma ReportsMove(retries: int, rows: seq<OutboxRow>, outcome: Id -> Outcome)
    requires Tidy(retries, rows) && Unprocessed(rows) != []
    requires forall id :: outcome(id).Delivered? || outcome(id).Undelivered?
    ensures Moves(retries, rows, {}, outcome)
  {
    NothingLocked(rows);
    SomeBatch(rows, BATCH_LIMIT);
    var r := Batch(rows, BATCH_LIMIT)[0];
    assert r in Taken(rows, {}, outcome);
    TakenIsDue(rows, {}, outcome, r);
    assert Progresses(retries, r, outcome(r.id));
  }

  lemma {:induction false} ReportsKeepMoving(retries: int, rows: seq<OutboxRow>, outcomes: seq<Id -> Outcome>)
    requires Tidy(retries, rows) && AlwaysReported(outcomes)
    ensures KeepsMoving(retries, rows, outcomes)
    decreases |outcomes|
  {
    if outcomes != [] {
      var before := Rounds(retries, rows, outcomes[..|outcomes| - 1]);
      ReportsKeepMoving(retries, rows, outcomes[..|outcomes| - 1]);
      RoundsKeepTidy(retries, rows, outcomes[..|outcomes| - 1]);
      if Unprocessed(before) != [] {
        ReportsMove(retries, before, outcomes[|outcomes| - 1]);
      }
    }
  }

  /** With a delivery report for every message, good or bad, any outbox is empty after as many rounds as it weighs:
      each row is published, or given up after enough failures. */
  lemma OutboxDrains(retries: int, rows: seq<OutboxRow>, outcomes: seq<Id -> Outcome>)
    requires Distinct(rows) && Tidy(retries, rows) && AlwaysReported(outcomes)
    requires |outcomes| >= Weight(retries, rows)
    ensures Unprocessed(Rounds(retries, rows, outcomes)) == []
    ensures forall r :: r in Rounds(retries, rows, outcomes) ==> r.publishedAt.Some? || r.retryCount >= retries
  {
    ReportsKeepMoving(retries, rows, outcomes);
    EveryMoveCounts(retries, rows, outcomes);
    var after := Rounds(retries, rows, outcomes);
    WeightlessIsDrained(retries, after);
    RoundsKeepTidy(retries, rows, outcomes);
    forall r | r in after ensures r.publishedAt.Some? || r.retryCount >= retries {
      UnprocessedSelects(after, r);
    }
  }

  // ---------- messages that cannot be queued ----------

  predicate Alike(r: OutboxRow, x: OutboxRow) {
    r.id == x.id && r.createdAt == x.createdAt && r.processedAt.None? == x.processedAt.None?
  }

  ghost predicate AllAlike(s: seq<OutboxRow>, t: seq<OutboxRow>) {
    |s| == |t| && forall i :: 0 <= i < |s| ==> Alike(s[i], t[i])
  }

  lemma {:induction false} UnprocessedAlike(s: seq<OutboxRow>, t: seq<OutboxRow>)
    requires AllAlike(s, t)
    ensures AllAlike(Unprocessed(s), Unprocessed(t))
  {
    if s != [] {
      UnprocessedAlike(s[..|s| - 1], t[..|t| - 1]);
    }
  }

  lemma {:induction false} InsertAlike(s: seq<OutboxRow>, t: seq<OutboxRow>, x: OutboxRow, y: OutboxRow,
                                       key: OutboxRow -> int)
    requires AllAlike(s, t) && Alike(x, y) && forall r: OutboxRow :: key(r) == r.createdAt
    ensures AllAlike(InsertSorted(s, x, key), InsertSorted(t, y, key))
  {
    if s != [] {
      InsertAlike(s[..|s| - 1], t[..|t| - 1], x, y, key);
    }
  }

  lemma {:induction false} OrderAlike(s: seq<OutboxRow>, t: seq<OutboxRow>, key: OutboxRow -> int)
    requires AllAlike(s, t) && forall r: OutboxRow :: key(r) == r.createdAt
    ensures AllAlike(OrderBy(s, key), OrderBy(t, key))
  {
    if s != [] {
      OrderAlike(s[..|s| - 1], t[..|t| - 1], key);
      InsertAlike(OrderBy(s[..|s| - 1], key), OrderBy(t[..|t| - 1], key), s[|s| - 1], t[|t| - 1], key);
    }
  }

  lemma BatchAlike(s: seq<OutboxRow>, t: seq<OutboxRow>)
    requires AllAlike(s, t)
    ensures Ids(Batch(s, BATCH_LIMIT)) == Ids(Batch(t, BATCH_LIMIT))
  {
    UnprocessedAlike(s, t);
    OrderAlike(Unprocessed(s), Unprocessed(t), (r: OutboxRow) => r.createdAt);
    var a, b := Batch(s, BATCH_LIMIT), Batch(t, BATCH_LIMIT);
    assert AllAlike(a, b);
    forall id ensures id in Ids(a) <==> id in Ids(b) {
      if id in Ids(a) {
        var i :| 0 <= i < |a| && a[i].id == id;
        assert b[i] in b;
      }
      if id in Ids(b) {
        var i :| 0 <= i < |b| && b[i].id == id;
        assert a[i] in a;
      }
    }
  }

  lemma QueuedOrNot(batch: seq<OutboxRow>, outcome: Id -> Outcome)
    requires forall id :: id in Ids(batch) ==> outcome(id).NotQueued?
    ensures batch[..Reach(batch, outcome)] == batch
  {
    forall i | 0 <= i < |batch| ensures !outcome(batch[i].id).Overflow? {
      assert batch[i].id in Ids(batch);
    }
  }

  ghost predicate NeverQueued(ids: set<Id>, outcomes: seq<Id -> Outcome>) {
    forall k, id :: 0 <= k < |outcomes| && id in ids ==> outcomes[k](id).NotQueued?
  }

  /** One round of messages that cannot be queued. */
  lemma UnqueueableRound(retries: int, rows: seq<OutboxRow>, outcome: Id -> Outcome)
    requires forall id :: id in Ids(Batch(rows, BATCH_LIMIT)) ==> outcome(id).NotQueued?
    ensures var after := Round(retries, rows, {}, outcome);
            && AllAlike(rows, after)
            && forall i :: 0 <= i < |rows| ==>
                 if rows[i].id in Ids(Batch(rows, BATCH_LIMIT))
                 then after[i].retryCount == rows[i].retryCount + 1
                 else after[i] == rows[i]
  {
    NothingLocked(rows);
    QueuedOrNot(Batch(rows, BATCH_LIMIT), outcome);
  }

  /**
    Where draining stops: while no row of the batch can be queued, every later round picks the same batch, its rows stay
    due however high their retry count climbs, and no row behind them is ever touched.
   */
  lemma {:induction false} UnqueueableBatchBlocks(retries: int, rows: seq<OutboxRow>, outcomes: seq<Id -> Outcome>)
    requires NeverQueued(Ids(Batch(rows, BATCH_LIMIT)), outcomes)
    ensures var after := Rounds(retries, rows, outcomes);
            && AllAlike(rows, after)
            && Ids(Batch(after, BATCH_LIMIT)) == Ids(Batch(rows, BATCH_LIMIT))
            && forall i :: 0 <= i < |rows| ==>
                 if rows[i].id in Ids(Batch(rows, BATCH_LIMIT))
                 then after[i].retryCount == rows[i].retryCount + |outcomes|
                 else after[i] == rows[i]
  {
    if outcomes != [] {
      var init := outcomes[..|outcomes| - 1];
      var before := Rounds(retries, rows, init);
      UnqueueableBatchBlocks(retries, rows, init);
      var after := Rounds(retries, rows, outcomes);
      UnqueueableRound(retries, before, outcomes[|outcomes| - 1]);
      forall i | 0 <= i < |rows| ensures Alike(rows[i], after[i]) {
        assert Alike(rows[i], before[i]) && Alike(before[i], after[i]);
      }
      BatchAlike(rows, after);
    }
  }
}
