/**
  End to end: any number of publishers share the outbox and one broker log, one consumer reads it. Every database
  statement, every broker event and every consumer move is a step of its own, and any publisher may stop anywhere.
 */
module Delivery {
  import opened Basics
  import opened Payments
  import opened Storage
  import opened Outbox
  import opened Publisher
  import opened Consumer

  /** One message of one publisher: read from the outbox, inside a producer, or waiting for its report to be handled. */
  datatype Flight =
    | Fetched(id: Id)
    | InProducer(id: Id)
    | Acknowledged(id: Id)
    | Refused(id: Id, message: string)
    | Counted(id: Id)
    | Exhausted(id: Id)

  /** failures records every failed attempt, issued every row ever inserted. */
  datatype Sender = Sender(
    rows: seq<OutboxRow>, issued: set<Id>, flights: map<nat, Flight>, topic: seq<Id>, failures: seq<Id>)

  datatype Send =
    | Insert(a: Id, id: Id, e: Event, at: Time)
    | Fetch(f: nat, id: Id)
    | Queue(f: nat)
    | QueueFails(f: nat, message: string)
    | Land(f: nat, acknowledged: bool)
    | Expire(f: nat, message: string)
    | Confirm(f: nat)
    | CountReport(f: nat)
    | ReadCount(f: nat)
    | WriteDead(f: nat)
    | Vanish(f: nat)
    | Purge(cutoff: Time)

  datatype Step = Send(send: Send) | Read(move: Move) | Tick(elapsed: nat)

  datatype World = World(now: Time, sender: Sender, reader: Reader)

  function Put(s: Sender, f: nat, flight: Flight): Sender {
    s.(flights := s.flights[f := flight])
  }

  function Drop(s: Sender, f: nat): Sender {
    s.(flights := s.flights - {f})
  }

  predicate LimitReached(retries: int, rows: seq<OutboxRow>, id: Id) {
    exists r :: r in rows && r.id == id && r.retryCount >= retries
  }

  function AddRow(s: Sender, a: Id, id: Id, e: Event, at: Time): Sender {
    var row := NewRow(s.rows, a, id, e, at);
    if id in s.issued || !Fits(s.rows, row) then s
    else s.(rows := s.rows + [row], issued := s.issued + {id})
  }

  function CountFailed(s: Sender, id: Id, message: string): Sender {
    s.(rows := Update(s.rows, id, CountFailure(message)), failures := s.failures + [id])
  }

  /** The steps of one message; f is the message. */
  function Fly(retries: int, s: Sender, f: nat, now: Time, send: Send): Sender
    requires f in s.flights
  {
    var x := s.flights[f];
    match send
    case Queue(_) => if x.Fetched? then Put(s, f, InProducer(x.id)) else s
    case QueueFails(_, message) => if x.Fetched? then Drop(CountFailed(s, x.id, message), f) else s
    case Land(_, acknowledged) =>
      if !x.InProducer? then s
      else Put(s, f, if acknowledged then Acknowledged(x.id) else Refused(x.id, "")).(topic := s.topic + [x.id])
    case Expire(_, message) => if x.InProducer? then Put(s, f, Refused(x.id, message)) else s
    case Confirm(_) =>
      if x.Acknowledged? then Drop(s.(rows := Update(s.rows, x.id, SetPublished(now))), f) else s
    case CountReport(_) => if x.Refused? then Put(CountFailed(s, x.id, x.message), f, Counted(x.id)) else s
    case ReadCount(_) =>
      if !x.Counted? then s
      else if LimitReached(retries, s.rows, x.id) then Put(s, f, Exhausted(x.id))
      else Drop(s, f)
    case WriteDead(_) => if x.Exhausted? then Drop(s.(rows := Update(s.rows, x.id, SetDead(now))), f) else s
    case Vanish(_) => Drop(s, f)
    case _ => s
  }

  function SendStep(retries: int, s: Sender, now: Time, send: Send): Sender {
    match send
    case Insert(a, id, e, at) => AddRow(s, a, id, e, at)
    case Fetch(f, id) =>
      if f !in s.flights && exists r :: r in s.rows && r.id == id && r.processedAt.None? then Put(s, f, Fetched(id)) else s
    case Purge(cutoff) => s.(rows := DeleteProcessed(s.rows, cutoff))
    case _ => if send.f in s.flights then Fly(retries, s, send.f, now, send) else s
  }

  function Next(retries: int, w: World, step: Step): World {
    match step
    case Send(send) => w.(sender := SendStep(retries, w.sender, w.now, send))
    case Read(move) => w.(reader := Advance(w.reader, w.sender.topic, w.now, move))
    case Tick(elapsed) => w.(now := w.now + elapsed)
  }

  function Start(begin: Time): World {
    World(begin, Sender([], {}, map[], [], []), Reader(0, 0, map[], Idle, [], []))
  }

  function Play(retries: int, begin: Time, steps: seq<Step>): World {
    if steps == [] then Start(begin)
    else Next(retries, Play(retries, begin, steps[..|steps| - 1]), steps[|steps| - 1])
  }

  // ---------- publisher safety ----------

  predicate RowSafe(retries: int, s: Sender, r: OutboxRow) {
    && r.id in s.issued
    && RowTidy(retries, r)
    && (r.publishedAt.Some? ==> r.id in s.topic)
    && r.retryCount <= multiset(s.failures)[r.id]
  }

  ghost predicate FlightSafe(retries: int, s: Sender, x: Flight) {
    && x.id in s.issued
    && (x.Acknowledged? ==> x.id in s.topic)
    && (x.Exhausted? ==> forall r :: r in s.rows && r.id == x.id ==> r.retryCount >= retries)
  }

  ghost predicate SenderSafe(retries: int, s: Sender) {
    && Distinct(s.rows)
    && (forall r :: r in s.rows ==> RowSafe(retries, s, r))
    && (forall f :: f in s.flights ==> FlightSafe(retries, s, s.flights[f]))
    && (forall id :: id in s.topic ==> id in s.issued)
  }

  /** A row update that keeps every row safe keeps the sender safe. */
  lemma UpdateKeepsSafe(retries: int, s: Sender, id: Id, c: Change, t: Sender)
    requires SenderSafe(retries, s)
    requires t.rows == Update(s.rows, id, c) && t.issued == s.issued && t.topic == s.topic
    requires t.failures == if c.CountFailure? then s.failures + [id] else s.failures
    requires c.SetPublished? ==> id in s.topic
    requires c.SetDead? ==> forall r :: r in s.rows && r.id == id ==> r.retryCount >= retries
    requires forall f :: f in t.flights ==> FlightSafe(retries, s, t.flights[f])
    ensures SenderSafe(retries, t)
  {
    UpdateKeepsDistinct(s.rows, id, c);
    forall r | r in t.rows ensures RowSafe(retries, t, r) {
      var i :| 0 <= i < |t.rows| && t.rows[i] == r;
      assert RowSafe(retries, s, s.rows[i]);
    }
    forall f | f in t.flights ensures FlightSafe(retries, t, t.flights[f]) {
      assert FlightSafe(retries, s, t.flights[f]);
      forall r | r in t.rows && r.id == t.flights[f].id && t.flights[f].Exhausted? ensures r.retryCount >= retries {
        var i :| 0 <= i < |t.rows| && t.rows[i] == r;
        assert s.rows[i] in s.rows;
      }
    }
  }

  lemma SetFlightKeepsSafe(retries: int, s: Sender, t: Sender)
    requires SenderSafe(retries, s)
    requires t.rows == s.rows && t.issued == s.issued && t.failures == s.failures
    requires |s.topic| <= |t.topic| && s.topic == t.topic[..|s.topic|]
    requires forall id :: id in t.topic ==> id in s.issued
    requires forall f :: f in t.flights ==>
               (f in s.flights && t.flights[f] == s.flights[f]) || FlightSafe(retries, t, t.flights[f])
    ensures SenderSafe(retries, t)
  {
    forall id | id in s.topic ensures id in t.topic {
      var i :| 0 <= i < |s.topic| && s.topic[i] == id;
      assert t.topic[i] == id;
    }
    forall r | r in t.rows ensures RowSafe(retries, t, r) {
      assert RowSafe(retries, s, r);
    }
    forall f | f in t.flights ensures FlightSafe(retries, t, t.flights[f]) {
      if f in s.flights && t.flights[f] == s.flights[f] {
        assert FlightSafe(retries, s, s.flights[f]);
      }
    }
  }

  lemma LimitHoldsForAll(retries: int, rows: seq<OutboxRow>, id: Id)
    requires Distinct(rows) && LimitReached(retries, rows, id)
    ensures forall r :: r in rows && r.id == id ==> r.retryCount >= retries
  {
    var i :| 0 <= i < |rows| && rows[i].id == id && rows[i].retryCount >= retries;
    forall r | r in rows && r.id == id ensures r.retryCount >= retries {
      var j :| 0 <= j < |rows| && rows[j] == r;
    }
  }

  lemma FlyKeepsSafe(retries: int, s: Sender, f: nat, now: Time, send: Send)
    requires SenderSafe(retries, s) && f in s.flights
    ensures SenderSafe(retries, Fly(retries, s, f, now, send))
  {
    var x, t := s.flights[f], Fly(retries, s, f, now, send);
    assert FlightSafe(retries, s, x);
    if t == s {
      return;
    }
    match send {
      case QueueFails(_, message) => UpdateKeepsSafe(retries, s, x.id, CountFailure(message), t);
      case Confirm(_) => UpdateKeepsSafe(retries, s, x.id, SetPublished(now), t);
      case CountReport(_) =>
        assert FlightSafe(retries, s, Counted(x.id));
        UpdateKeepsSafe(retries, s, x.id, CountFailure(x.message), t);
      case WriteDead(_) => UpdateKeepsSafe(retries, s, x.id, SetDead(now), t);
      case ReadCount(_) =>
        if LimitReached(retries, s.rows, x.id) {
          LimitHoldsForAll(retries, s.rows, x.id);
          assert FlightSafe(retries, t, Exhausted(x.id));
        }
        SetFlightKeepsSafe(retries, s, t);
      case Land(_, acknowledged) =>
        assert t.topic[|s.topic|] == x.id;
        assert FlightSafe(retries, t, t.flights[f]);
        SetFlightKeepsSafe(retries, s, t);
      case _ => SetFlightKeepsSafe(retries, s, t);
    }
  }

  lemma AddRowKeepsSafe(retries: int, s: Sender, a: Id, id: Id, e: Event, at: Time)
    requires SenderSafe(retries, s)
    ensures SenderSafe(retries, AddRow(s, a, id, e, at))
  {
    var t := AddRow(s, a, id, e, at);
    if t != s {
      FitsKeepsDistinct(s.rows, NewRow(s.rows, a, id, e, at));
      forall r | r in t.rows ensures RowSafe(retries, t, r) {
        if r in s.rows {
          assert RowSafe(retries, s, r);
        }
      }
      forall f | f in t.flights ensures FlightSafe(retries, t, t.flights[f]) {
        assert FlightSafe(retries, s, s.flights[f]);
      }
    }
  }

  lemma PurgeKeepsSafe(retries: int, s: Sender, cutoff: Time)
    requires SenderSafe(retries, s)
    ensures SenderSafe(retries, s.(rows := DeleteProcessed(s.rows, cutoff)))
  {
    var t := s.(rows := DeleteProcessed(s.rows, cutoff));
    DeletionKeepsDistinct(s.rows, cutoff);
    forall r | r in t.rows ensures r in s.rows && RowSafe(retries, t, r) {
      DeletionSelects(s.rows, cutoff, r);
      assert RowSafe(retries, s, r);
    }
    forall f | f in t.flights ensures FlightSafe(retries, t, t.flights[f]) {
      assert FlightSafe(retries, s, s.flights[f]);
    }
  }

  lemma FetchKeepsSafe(retries: int, s: Sender, f: nat, id: Id)
    requires SenderSafe(retries, s) && f !in s.flights && exists r :: r in s.rows && r.id == id
    ensures SenderSafe(retries, Put(s, f, Fetched(id)))
  {
    var r :| r in s.rows && r.id == id;
    assert RowSafe(retries, s, r);
    SetFlightKeepsSafe(retries, s, Put(s, f, Fetched(id)));
  }

  lemma SendKeepsSafe(retries: int, s: Sender, now: Time, send: Send)
    requires SenderSafe(retries, s)
    ensures SenderSafe(retries, SendStep(retries, s, now, send))
  {
    match send {
      case Insert(a, id, e, at) => AddRowKeepsSafe(retries, s, a, id, e, at);
      case Fetch(f, id) =>
        if f !in s.flights && exists r :: r in s.rows && r.id == id && r.processedAt.None? {
          FetchKeepsSafe(retries, s, f, id);
        }
      case Purge(cutoff) => PurgeKeepsSafe(retries, s, cutoff);
      case _ => if send.f in s.flights { FlyKeepsSafe(retries, s, send.f, now, send); }
    }
  }

  lemma {:induction false} EverySenderIsSafe(retries: int, begin: Time, steps: seq<Step>)
    ensures SenderSafe(retries, Play(retries, begin, steps).sender)
  {
    if steps != [] {
      var init, last := steps[..|steps| - 1], steps[|steps| - 1];
      EverySenderIsSafe(retries, begin, init);
      if last.Send? {
        var w := Play(retries, begin, init);
        SendKeepsSafe(retries, w.sender, w.now, last.send);
      }
    }
  }

  /**
    Publisher safety. In every run a published row's message is in the broker's log and the row is processed; a
    processed row that is not published was refused at least as often as the retry limit; every other row is still in
    the queue publishers read from.
   */
  lemma RowsAreDeliveredDeadOrDue(retries: int, begin: Time, steps: seq<Step>, r: OutboxRow)
    requires r in Play(retries, begin, steps).sender.rows
    ensures var s := Play(retries, begin, steps).sender;
            && (r.publishedAt.Some? ==> r.id in s.topic && r.processedAt.Some?)
            && (r.processedAt.Some? && r.publishedAt.None? ==> multiset(s.failures)[r.id] >= retries)
            && (r.processedAt.None? ==> r in Unprocessed(s.rows))
  {
    EverySenderIsSafe(retries, begin, steps);
    var s := Play(retries, begin, steps).sender;
    assert RowSafe(retries, s, r);
    UnprocessedSelects(s.rows, r);
  }

  // ---------- the publisher's round, message by message ----------

  function Sends(retries: int, s: Sender, now: Time, sends: seq<Send>): Sender
    decreases |sends|
  {
    if sends == [] then s else Sends(retries, SendStep(retries, s, now, sends[0]), now, sends[1..])
  }

  /** The database statements and broker events behind one outcome. */
  function Itinerary(f: nat, id: Id, o: Outcome): seq<Send> {
    match o
    case NotQueued(message) => [Fetch(f, id), QueueFails(f, message)]
    case Overflow => [Fetch(f, id), Vanish(f)]
    case Delivered(_) => [Fetch(f, id), Queue(f), Land(f, true), Confirm(f)]
    case Undelivered(message, _) =>
      [Fetch(f, id), Queue(f), Expire(f, message), CountReport(f), ReadCount(f), WriteDead(f)]
    case Unreported => [Fetch(f, id), Queue(f)]
  }

  lemma SendsStep(retries: int, s: Sender, now: Time, send: Send, sends: seq<Send>, t: Sender)
    requires SendStep(retries, s, now, send) == t
    ensures Sends(retries, s, now, [send] + sends) == Sends(retries, t, now, sends)
  {
    assert ([send] + sends)[1..] == sends;
  }

  lemma CountedSettles(retries: int, s: Sender, f: nat, id: Id, now: Time)
    requires f in s.flights && s.flights[f] == Counted(id)
    ensures Sends(retries, s, now, [ReadCount(f), WriteDead(f)]).rows
         == if LimitReached(retries, s.rows, id) then Update(s.rows, id, SetDead(now)) else s.rows
  {
    var t := SendStep(retries, s, now, ReadCount(f));
    SendsStep(retries, s, now, ReadCount(f), [WriteDead(f)], t);
    assert [ReadCount(f), WriteDead(f)] == [ReadCount(f)] + [WriteDead(f)];
    SendsStep(retries, t, now, WriteDead(f), [], SendStep(retries, t, now, WriteDead(f)));
    assert [WriteDead(f)] == [WriteDead(f)] + [];
  }

  lemma RefusalSettles(retries: int, s: Sender, f: nat, id: Id, message: string, now: Time)
    requires Distinct(s.rows) && f in s.flights && s.flights[f] == Refused(id, message)
    ensures Sends(retries, s, now, [CountReport(f), ReadCount(f), WriteDead(f)]).rows
         == SettleRow(retries, s.rows, id, Undelivered(message, now))
  {
    ReportedIs(retries, s.rows, id, message, now);
    var t := Put(CountFailed(s, id, message), f, Counted(id));
    SendsStep(retries, s, now, CountReport(f), [ReadCount(f), WriteDead(f)], t);
    assert [CountReport(f), ReadCount(f), WriteDead(f)] == [CountReport(f)] + [ReadCount(f), WriteDead(f)];
    CountedSettles(retries, t, f, id, now);
  }

  lemma DeliverySettles(retries: int, s: Sender, f: nat, id: Id, at: Time)
    requires f in s.flights && s.flights[f] == InProducer(id)
    ensures Sends(retries, s, at, [Land(f, true), Confirm(f)]).rows == SettleRow(retries, s.rows, id, Delivered(at))
  {
    var t1 := SendStep(retries, s, at, Land(f, true));
    SendsStep(retries, s, at, Land(f, true), [Confirm(f)], t1);
    assert [Land(f, true), Confirm(f)] == [Land(f, true)] + [Confirm(f)];
    var t2 := SendStep(retries, t1, at, Confirm(f));
    SendsStep(retries, t1, at, Confirm(f), [], t2);
    assert [Confirm(f)] == [Confirm(f)] + [];
    assert t2.rows == SettleRow(retries, s.rows, id, Delivered(at));
  }

  lemma ExpirySettles(retries: int, s: Sender, f: nat, id: Id, message: string, at: Time)
    requires Distinct(s.rows) && f in s.flights && s.flights[f] == InProducer(id)
    ensures Sends(retries, s, at, [Expire(f, message), CountReport(f), ReadCount(f), WriteDead(f)]).rows
         == SettleRow(retries, s.rows, id, Undelivered(message, at))
  {
    var t := Put(s, f, Refused(id, message));
    SendsStep(retries, s, at, Expire(f, message), [CountReport(f), ReadCount(f), WriteDead(f)], t);
    assert [Expire(f, message), CountReport(f), ReadCount(f), WriteDead(f)]
        == [Expire(f, message)] + [CountReport(f), ReadCount(f), WriteDead(f)];
    RefusalSettles(retries, t, f, id, message, at);
  }

  lemma QueueFailureSettles(retries: int, s: Sender, f: nat, id: Id, message: string, at: Time)
    requires f in s.flights && s.flights[f] == Fetched(id)
    ensures Sends(retries, s, at, [QueueFails(f, message)]).rows == SettleRow(retries, s.rows, id, NotQueued(message))
  {
    var t := SendStep(retries, s, at, QueueFails(f, message));
    SendsStep(retries, s, at, QueueFails(f, message), [], t);
    assert [QueueFails(f, message)] == [QueueFails(f, message)] + [];
    assert t.rows == SettleRow(retries, s.rows, id, NotQueued(message));
  }

  ghost predicate IsDue(s: Sender, id: Id) {
    exists r :: r in s.rows && r.id == id && r.processedAt.None?
  }

  lemma Fetching(retries: int, s: Sender, f: nat, id: Id, now: Time, rest: seq<Send>)
    requires f !in s.flights && IsDue(s, id)
    ensures Sends(retries, s, now, [Fetch(f, id)] + rest) == Sends(retries, Put(s, f, Fetched(id)), now, rest)
  {
    SendsStep(retries, s, now, Fetch(f, id), rest, Put(s, f, Fetched(id)));
  }

  lemma Queueing(retries: int, s: Sender, f: nat, id: Id, now: Time, rest: seq<Send>)
    requires f !in s.flights && IsDue(s, id)
    ensures Sends(retries, s, now, [Fetch(f, id), Queue(f)] + rest)
         == Sends(retries, Put(s, f, InProducer(id)), now, rest)
  {
    var t := Put(s, f, Fetched(id));
    Fetching(retries, s, f, id, now, [Queue(f)] + rest);
    SendsStep(retries, t, now, Queue(f), rest, Put(s, f, InProducer(id)));
    assert [Fetch(f, id), Queue(f)] + rest == [Fetch(f, id)] + ([Queue(f)] + rest);
  }

  /** A round's effect on one due row is what that message's steps do when nobody else moves in between. */
  lemma ItinerarySettles(retries: int, s: Sender, f: nat, id: Id, o: Outcome, now: Time)
    requires Distinct(s.rows) && f !in s.flights && IsDue(s, id)
    requires o.Delivered? || o.Undelivered? ==> o.at == now
    ensures Sends(retries, s, now, Itinerary(f, id, o)).rows == SettleRow(retries, s.rows, id, o)
  {
    var t := Put(s, f, InProducer(id));
    match o {
      case NotQueued(message) =>
        Fetching(retries, s, f, id, now, [QueueFails(f, message)]);
        assert Itinerary(f, id, o) == [Fetch(f, id)] + [QueueFails(f, message)];
        QueueFailureSettles(retries, Put(s, f, Fetched(id)), f, id, message, now);
      case Overflow =>
        Fetching(retries, s, f, id, now, [Vanish(f)]);
        assert Itinerary(f, id, o) == [Fetch(f, id)] + [Vanish(f)];
        var u := Put(s, f, Fetched(id));
        SendsStep(retries, u, now, Vanish(f), [], Drop(u, f));
        assert [Vanish(f)] == [Vanish(f)] + [];
        assert s.rows == SettleRow(retries, s.rows, id, o);
      case Delivered(_) =>
        Queueing(retries, s, f, id, now, [Land(f, true), Confirm(f)]);
        assert Itinerary(f, id, o) == [Fetch(f, id), Queue(f)] + [Land(f, true), Confirm(f)];
        DeliverySettles(retries, t, f, id, now);
      case Undelivered(message, _) =>
        var rest := [Expire(f, message), CountReport(f), ReadCount(f), WriteDead(f)];
        Queueing(retries, s, f, id, now, rest);
        assert Itinerary(f, id, o) == [Fetch(f, id), Queue(f)] + rest;
        ExpirySettles(retries, t, f, id, message, now);
      case Unreported =>
        Queueing(retries, s, f, id, now, []);
        assert Itinerary(f, id, o) == [Fetch(f, id), Queue(f)] + [];
        assert Sends(retries, t, now, []) == t;
        assert s.rows == SettleRow(retries, s.rows, id, o);
    }
  }

  // ---------- the consumer at the end of every run ----------

  lemma SendGrowsTopic(retries: int, s: Sender, now: Time, send: Send)
    ensures var t := SendStep(retries, s, now, send).topic; |s.topic| <= |t| && t[..|s.topic|] == s.topic
  {
  }

  lemma GrowthKeepsOk(c: Reader, topic: seq<Id>, more: seq<Id>, begin: Time, now: Time)
    requires ReaderOk(c, topic, begin, now)
    requires |topic| <= |more| && more[..|topic|] == topic
    ensures ReaderOk(c, more, begin, now)
    ensures CleanOk(c, topic) ==> CleanOk(c, more)
  {
    forall o | 0 <= o < |topic| ensures more[o] == topic[o] {
      assert more[..|topic|][o] == more[o];
    }
    forall id | id in c.handled ensures id in more {
      var i :| 0 <= i < |topic| && topic[i] == id;
      assert more[i] == id;
    }
  }

  lemma WaitingKeepsOk(c: Reader, topic: seq<Id>, begin: Time, now: Time, later: Time)
    requires ReaderOk(c, topic, begin, now) && now <= later
    ensures ReaderOk(c, topic, begin, later)
  {
  }

  lemma {:induction false} EveryReaderIsOk(retries: int, begin: Time, steps: seq<Step>)
    ensures var w := Play(retries, begin, steps); begin <= w.now && ReaderOk(w.reader, w.sender.topic, begin, w.now)
  {
    if steps != [] {
      var init, last := steps[..|steps| - 1], steps[|steps| - 1];
      EveryReaderIsOk(retries, begin, init);
      var w := Play(retries, begin, init);
      match last {
        case Send(send) =>
          SendGrowsTopic(retries, w.sender, w.now, send);
          GrowthKeepsOk(w.reader, w.sender.topic, SendStep(retries, w.sender, w.now, send).topic, begin, w.now);
        case Read(move) => AdvanceKeepsOk(w.reader, w.sender.topic, begin, w.now, move);
        case Tick(elapsed) => WaitingKeepsOk(w.reader, w.sender.topic, begin, w.now, w.now + elapsed);
      }
    }
  }

  /**
    However often publishers send a row and however often the consumer restarts, two handler calls for one row are
    separated by the lifetime of the first call's mark; and only rows of the outbox are ever handled.
   */
  lemma HandlerCallsAreApart(retries: int, begin: Time, steps: seq<Step>)
    ensures var w := Play(retries, begin, steps);
            && CallsApart(w.reader.calls)
            && (forall i, j :: 0 <= i < j < |w.reader.calls| && w.reader.calls[i].id == w.reader.calls[j].id ==>
                  w.reader.calls[i].marked + 7 * 86_400 * SECOND <= w.reader.calls[j].marked)
            && (forall k :: k in w.reader.calls ==> begin <= k.marked <= w.now)
            && (forall id :: id in w.reader.handled ==> id in w.sender.issued)
  {
    EveryReaderIsOk(retries, begin, steps);
    EverySenderIsSafe(retries, begin, steps);
  }

  ghost predicate CleanRun(retries: int, begin: Time, steps: seq<Step>)
    decreases |steps|
  {
    steps != [] ==>
      var init, last := steps[..|steps| - 1], steps[|steps| - 1];
      CleanRun(retries, begin, init) && (last.Read? ==> Clean(Play(retries, begin, init).reader, last.move))
  }

  lemma {:induction false} CleanRunsHandleWhatTheyCommit(retries: int, begin: Time, steps: seq<Step>)
    requires CleanRun(retries, begin, steps)
    ensures var w := Play(retries, begin, steps); CleanOk(w.reader, w.sender.topic)
    decreases |steps|
  {
    if steps != [] {
      var init, last := steps[..|steps| - 1], steps[|steps| - 1];
      CleanRunsHandleWhatTheyCommit(retries, begin, init);
      EveryReaderIsOk(retries, begin, init);
      var w := Play(retries, begin, init);
      match last {
        case Send(send) =>
          SendGrowsTopic(retries, w.sender, w.now, send);
          GrowthKeepsOk(w.reader, w.sender.topic, SendStep(retries, w.sender, w.now, send).topic, begin, w.now);
        case Read(move) => AdvanceKeepsClean(w.reader, w.sender.topic, begin, w.now, move);
        case Tick(_) =>
      }
    }
  }

  /**
    End-to-end delivery. On clean runs shorter than the lifetime of a mark: no row is handled twice, every committed
    message's row was handled exactly once, and once the consumer has committed the whole log, so was every row marked
    published.
   */
  lemma DeliveredExactlyOnce(retries: int, begin: Time, steps: seq<Step>)
    requires CleanRun(retries, begin, steps) && Play(retries, begin, steps).now < begin + TTL
    ensures var w := Play(retries, begin, steps);
            && (forall id :: AtMostOnce(w.reader.handled, id))
            && w.reader.committed <= |w.sender.topic|
            && (forall o :: 0 <= o < w.reader.committed ==> ExactlyOnce(w.reader.handled, w.sender.topic[o]))
            && (w.reader.committed == |w.sender.topic| ==>
                  forall r :: r in w.sender.rows && r.publishedAt.Some? ==> ExactlyOnce(w.reader.handled, r.id))
  {
    CleanRunsHandleWhatTheyCommit(retries, begin, steps);
    EveryReaderIsOk(retries, begin, steps);
    EverySenderIsSafe(retries, begin, steps);
    var w := Play(retries, begin, steps);
    var c := w.reader;
    forall id ensures AtMostOnce(c.handled, id) {
      ShortRunsHandleOnce(c, w.sender.topic, begin, w.now, id);
    }
    forall r | r in w.sender.rows && r.publishedAt.Some? && c.committed == |w.sender.topic|
      ensures ExactlyOnce(c.handled, r.id)
    {
      assert RowSafe(retries, w.sender, r);
      var o :| 0 <= o < |w.sender.topic| && w.sender.topic[o] == r.id;
    }
  }

  lemma ShortRunsHandleOnce(c: Reader, topic: seq<Id>, begin: Time, now: Time, id: Id)
    requires ReaderOk(c, topic, begin, now) && CleanOk(c, topic) && now < begin + TTL
    ensures AtMostOnce(c.handled, id)
  {
    forall i, j | 0 <= i < |c.handled| && 0 <= j < |c.handled| && c.handled[i] == id && c.handled[j] == id
      ensures i == j
    {
      assert c.calls[i].id == c.calls[j].id;
    }
  }

  // ---------- what a raise or a crash after marking costs ----------

  /** From the n-th call on, id is marked until the given instant and has not been called. */
  ghost predicate Shielded(c: Reader, topic: seq<Id>, id: Id, until: Time, n: nat) {
    && id in c.cache && c.cache[id] == until
    && !(c.stage.Marked? && c.stage.offset < |topic| && topic[c.stage.offset] == id)
    && n <= |c.calls| && forall k :: n <= k < |c.calls| ==> c.calls[k].id != id
  }

  lemma StepKeepsShield(retries: int, w: World, step: Step, begin: Time, id: Id, until: Time, n: nat)
    requires ReaderOk(w.reader, w.sender.topic, begin, w.now) && w.now < until
    requires Shielded(w.reader, w.sender.topic, id, until, n)
    ensures var v := Next(retries, w, step); Shielded(v.reader, v.sender.topic, id, until, n)
  {
    if step.Send? {
      SendGrowsTopic(retries, w.sender, w.now, step.send);
    }
  }

  lemma TimeOnlyGrows(retries: int, w: World, step: Step)
    ensures w.now <= Next(retries, w, step).now
  {
  }

  lemma {:induction false} ShieldLasts(retries: int, begin: Time, steps: seq<Step>, more: seq<Step>, id: Id, until: Time,
                                       n: nat)
    requires var w := Play(retries, begin, steps); Shielded(w.reader, w.sender.topic, id, until, n)
    requires Play(retries, begin, steps + more).now < until
    ensures var w := Play(retries, begin, steps + more); Shielded(w.reader, w.sender.topic, id, until, n)
    decreases |more|
  {
    if more == [] {
      assert steps + more == steps;
    } else {
      var init, last := more[..|more| - 1], more[|more| - 1];
      var w := Play(retries, begin, steps + init);
      assert (steps + more)[..|steps + more| - 1] == steps + init;
      assert Play(retries, begin, steps + more) == Next(retries, w, last);
      TimeOnlyGrows(retries, w, last);
      ShieldLasts(retries, begin, steps, init, id, until, n);
      EveryReaderIsOk(retries, begin, steps + init);
      StepKeepsShield(retries, w, last, begin, id, until, n);
    }
  }

  /**
    There is no retry. Once a message is marked and its handler has been called, or the consumer crashed before the
    call, no handler is called for it again while the mark lives, whatever happens next: a raise, a restart, a re-send.
   */
  lemma MarkedIsNotCalledAgain(retries: int, begin: Time, steps: seq<Step>, more: seq<Step>, id: Id)
    requires var w := Play(retries, begin, steps);
             && id in w.reader.cache && !(w.reader.stage.Marked? && InHand(w.reader, w.sender.topic, id))
    requires Play(retries, begin, steps + more).now < Play(retries, begin, steps).reader.cache[id]
    ensures var c, d := Play(retries, begin, steps).reader, Play(retries, begin, steps + more).reader;
            && |c.calls| <= |d.calls|
            && forall k :: |c.calls| <= k < |d.calls| ==> d.calls[k].id != id
  {
    var w := Play(retries, begin, steps);
    ShieldLasts(retries, begin, steps, more, id, w.reader.cache[id], |w.reader.calls|);
  }

  /**
    The condition on clean runs is needed: a crash between marking the next uncommitted message and the return of its
    handler, and the message is skipped and committed unhandled.
   */
  lemma CrashAfterMarkingLosesTheMessage(c: Reader, topic: seq<Id>, begin: Time, now: Time)
    requires ReaderOk(c, topic, begin, now) && (c.stage.Marked? || c.stage.Calling?)
    requires c.committed == c.stage.offset && now < c.stage.at + TTL
    ensures Advances(c, topic, now, [Crash] + Turn(RETURNS))
         == c.(position := c.committed + 1, committed := c.committed + 1, stage := Idle)
  {
    var d := Advance(c, topic, now, Crash);
    AdvancesStep(c, topic, now, Crash, Turn(RETURNS), d);
    TurnOnDuplicate(d, topic, now, RETURNS);
  }

  // ---------- both conditions on clean runs, on runs from the start ----------

  function ReadAll(moves: seq<Move>): (r: seq<Step>)
    ensures |r| == |moves|
    ensures forall i :: 0 <= i < |moves| ==> r[i] == Read(moves[i])
  {
    seq(|moves|, i requires 0 <= i < |moves| => Read(moves[i]))
  }

  lemma PlaySnoc(retries: int, begin: Time, steps: seq<Step>, step: Step)
    ensures Play(retries, begin, steps + [step]) == Next(retries, Play(retries, begin, steps), step)
  {
    assert (steps + [step])[..|steps|] == steps;
  }

  lemma PlayReaches(retries: int, begin: Time, steps: seq<Step>, w: World, step: Step, v: World)
    requires Play(retries, begin, steps) == w && Next(retries, w, step) == v
    ensures Play(retries, begin, steps + [step]) == v
  {
    PlaySnoc(retries, begin, steps, step);
  }

  lemma {:induction false} PlayReads(retries: int, begin: Time, steps: seq<Step>, moves: seq<Move>, w: World)
    requires Play(retries, begin, steps) == w
    ensures Play(retries, begin, steps + ReadAll(moves))
         == w.(reader := Advances(w.reader, w.sender.topic, w.now, moves))
    decreases |moves|
  {
    if moves == [] {
      assert steps + ReadAll(moves) == steps;
    } else {
      var v := w.(reader := Advance(w.reader, w.sender.topic, w.now, moves[0]));
      PlayReaches(retries, begin, steps, w, Read(moves[0]), v);
      PlayReads(retries, begin, steps + [Read(moves[0])], moves[1..], v);
      assert steps + ReadAll(moves) == steps + [Read(moves[0])] + ReadAll(moves[1..]);
    }
  }

  /** One row is inserted, sent and acknowledged. */
  function Landing(f: nat, a: Id, id: Id, e: Event, at: Time): seq<Step> {
    [Step.Send(Insert(a, id, e, at)), Step.Send(Fetch(f, id)), Step.Send(Queue(f)), Step.Send(Land(f, true))]
  }

  function Landed(s: Sender, f: nat, a: Id, id: Id, e: Event, now: Time): Sender {
    Sender(s.rows + [NewRow(s.rows, a, id, e, now)], s.issued + {id}, s.flights[f := Acknowledged(id)],
           s.topic + [id], s.failures)
  }

  lemma InsertAndFetch(retries: int, w: World, f: nat, a: Id, id: Id, e: Event)
    requires f !in w.sender.flights && id !in w.sender.issued && forall x :: x in w.sender.rows ==> x.id != id
    ensures Next(retries, Next(retries, w, Step.Send(Insert(a, id, e, w.now))), Step.Send(Fetch(f, id)))
         == w.(sender := Put(AddRow(w.sender, a, id, e, w.now), f, Fetched(id)))
  {
    var row := NewRow(w.sender.rows, a, id, e, w.now);
    NextVersionIsFree(w.sender.rows, a, id, e, w.now);
    assert row in AddRow(w.sender, a, id, e, w.now).rows;
  }

  lemma QueueAndLand(retries: int, w: World, f: nat, id: Id)
    requires f in w.sender.flights && w.sender.flights[f] == Fetched(id)
    ensures Next(retries, Next(retries, w, Step.Send(Queue(f))), Step.Send(Land(f, true)))
         == w.(sender := Put(w.sender, f, Acknowledged(id)).(topic := w.sender.topic + [id]))
  {
  }

  lemma LandingLands(retries: int, begin: Time, steps: seq<Step>, w: World, f: nat, a: Id, id: Id, e: Event)
    requires Play(retries, begin, steps) == w
    requires f !in w.sender.flights && id !in w.sender.issued && forall x :: x in w.sender.rows ==> x.id != id
    ensures Play(retries, begin, steps + Landing(f, a, id, e, w.now)) == w.(sender := Landed(w.sender, f, a, id, e, w.now))
  {
    var m := Landing(f, a, id, e, w.now);
    var w2 := w.(sender := Put(AddRow(w.sender, a, id, e, w.now), f, Fetched(id)));
    NextVersionIsFree(w.sender.rows, a, id, e, w.now);
    InsertAndFetch(retries, w, f, a, id, e);
    PlayTwice(retries, begin, steps, m[0], m[1], w, Next(retries, w, m[0]), w2);
    QueueAndLand(retries, w2, f, id);
    PlayTwice(retries, begin, steps + [m[0], m[1]], m[2], m[3], w2, Next(retries, w2, m[2]),
              w.(sender := Landed(w.sender, f, a, id, e, w.now)));
    assert steps + m == steps + [m[0], m[1]] + [m[2], m[3]];
  }

  lemma PlayTwice(retries: int, begin: Time, steps: seq<Step>, m: Step, n: Step, w: World, v: World, u: World)
    requires Play(retries, begin, steps) == w && Next(retries, w, m) == v && Next(retries, v, n) == u
    ensures Play(retries, begin, steps + [m, n]) == u
  {
    PlayReaches(retries, begin, steps, w, m, v);
    PlayReaches(retries, begin, steps + [m], v, n, u);
    assert steps + [m, n] == steps + [m] + [n];
  }

  function TwoLandings(a: Id, i: Id, j: Id, e: Event, at: Time): seq<Step> {
    Landing(0, a, i, e, at) + Landing(1, a, j, e, at)
  }

  lemma OneMessageLands(retries: int, begin: Time, a: Id, i: Id, e: Event)
    ensures Play(retries, begin, Landing(0, a, i, e, begin))
         == Start(begin).(sender := Landed(Start(begin).sender, 0, a, i, e, begin))
  {
    assert Play(retries, begin, []) == Start(begin);
    LandingLands(retries, begin, [], Start(begin), 0, a, i, e);
    assert [] + Landing(0, a, i, e, begin) == Landing(0, a, i, e, begin);
  }

  lemma TwoMessagesLand(retries: int, begin: Time, a: Id, i: Id, j: Id, e: Event)
    requires i != j
    ensures var w := Play(retries, begin, TwoLandings(a, i, j, e, begin));
            w.sender.topic == [i, j] && w.reader == Start(begin).reader && w.now == begin
  {
    OneMessageLands(retries, begin, a, i, e);
    var s := Landed(Start(begin).sender, 0, a, i, e, begin);
    assert s.topic == [i] && s.issued == {i} && s.flights.Keys == {0};
    LandingLands(retries, begin, Landing(0, a, i, e, begin), Start(begin).(sender := s), 1, a, j, e);
  }

  /**
    A raise: from the start, two messages; the first handler raises, the second returns, and the whole log is committed.
   */
  lemma RaiseLosesAMessage(retries: int, begin: Time, a: Id, i: Id, j: Id, e: Event)
    requires i != j
    ensures var w := Play(retries, begin, TwoLandings(a, i, j, e, begin) + ReadAll(Turn(RAISES) + Turn(RETURNS)));
            && w.sender.topic == [i, j] && w.reader.committed == 2
            && w.reader.handled == [j] && i !in w.reader.handled
  {
    var steps := TwoLandings(a, i, j, e, begin);
    TwoMessagesLand(retries, begin, a, i, j, e);
    PlayReads(retries, begin, steps, Turn(RAISES) + Turn(RETURNS), Play(retries, begin, steps));
    var c := Start(begin).reader;
    AdvancesAppend(c, [i, j], begin, Turn(RAISES), Turn(RETURNS));
    TurnOnFresh(c, [i, j], begin, RAISES);
    TurnOnFresh(Advances(c, [i, j], begin, Turn(RAISES)), [i, j], begin, RETURNS);
    assert [] + [j] == [j];
  }

  /**
    A crash: from the start, the first message is marked, the consumer restarts, and the message is committed unhandled.
   */
  lemma CrashLosesAMessage(retries: int, begin: Time, a: Id, i: Id, j: Id, e: Event)
    requires i != j
    ensures var w := Play(retries, begin,
                          TwoLandings(a, i, j, e, begin) + ReadAll([Poll, GetMark, SetMark] + ([Crash] + Turn(RETURNS))));
            w.sender.topic == [i, j] && w.reader.committed == 1 && w.reader.handled == []
  {
    var steps, moves := TwoLandings(a, i, j, e, begin), [Crash] + Turn(RETURNS);
    TwoMessagesLand(retries, begin, a, i, j, e);
    PlayReads(retries, begin, steps, [Poll, GetMark, SetMark] + moves, Play(retries, begin, steps));
    var c := Start(begin).reader;
    TurnMarks(c, [i, j], begin, moves);
    var d := MarkedNow(c, i, begin);
    CrashAfterMarkingLosesTheMessage(d, [i, j], begin, begin);
  }
}
