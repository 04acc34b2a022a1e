/**
  From command to handler: the write side's saves are the only source of outbox rows, any number of publishers send
  them, and the consumer handles them, all steps interleaved.
 */
module Pipeline {
  import opened Basics
  import opened Payments
  import opened Storage
  import opened Outbox
  import opened EventStore
  import W = WriteSide
  import C = Consumer
  import D = Delivery

  /** The write side and the delivery world share the outbox. origins: the stored row behind each outbox id. */
  datatype Pipe = Pipe(system: W.System, world: D.World, origins: map<Id, StoreRow>)

  datatype Step = Write(write: W.Step) | Deliver(step: D.Step)

  datatype Config = Config(debug: bool, retries: int, begin: Time)

  function Start(cfg: Config): Pipe {
    Pipe(W.EMPTY, D.Start(cfg.begin), map[])
  }

  /** Outbox ids are fresh UUIDs. */
  predicate FreshIds(stamps: seq<Stamp>, issued: set<Id>) {
    forall i :: 0 <= i < |stamps| ==> stamps[i].outboxId !in issued
  }

  function OutboxIds(stamps: seq<Stamp>): set<Id> {
    set i | 0 <= i < |stamps| :: stamps[i].outboxId
  }

  function Noted(origins: map<Id, StoreRow>, a: Id, expected: int, events: seq<Event>, stamps: seq<Stamp>)
    : map<Id, StoreRow>
    requires |stamps| == |events|
    decreases |events|
  {
    if events == [] then origins
    else
      var s := stamps[0];
      Noted(origins[s.outboxId := StoreRow(s.rowId, a, expected + 1, events[0], s.at)], a, expected + 1,
            events[1..], stamps[1..])
  }

  /** The aggregate a step saves, when that save commits. */
  function Committed(p: Pipe, debug: bool, write: W.Step): Option<Aggregate> {
    if write.Save? && write.c in p.system.editing && |write.stamps| == |p.system.editing[write.c].uncommitted|
       && Commit(p.system.db, debug, p.system.editing[write.c], write.stamps).Ok?
    then Some(p.system.editing[write.c])
    else None
  }

  /** The delivery world after the rows of a committed append. */
  function Appended(w: D.World, outbox: seq<OutboxRow>, ids: set<Id>): D.World {
    w.(sender := w.sender.(rows := outbox, issued := w.sender.issued + ids))
  }

  /** What a committed save leaves: its rows are in the shared outbox, and their origins are noted. */
  function Recorded(p: Pipe, system: W.System, a: Aggregate, stamps: seq<Stamp>): Pipe
    requires |stamps| == |a.uncommitted|
  {
    Pipe(system, Appended(p.world, system.db.outbox, OutboxIds(stamps)),
         Noted(p.origins, a.core.paymentId, a.version - |a.uncommitted|, a.uncommitted, stamps))
  }

  /** Saves with used ids do not happen; the delivery columns are the delivery world's. */
  predicate Skipped(p: Pipe, write: W.Step) {
    write.Touch? || write.Purge? || (write.Save? && !FreshIds(write.stamps, p.world.sender.issued))
  }

  function WriteStep(cfg: Config, p: Pipe, write: W.Step): Pipe {
    if Skipped(p, write) then p
    else
      var system := W.Next(p.system, write, cfg.debug);
      match Committed(p, cfg.debug, write)
      case None => p.(system := system)
      case Some(a) => Recorded(p, system, a, write.stamps)
  }

  function DeliverStep(cfg: Config, p: Pipe, step: D.Step): Pipe {
    if step.Send? && step.send.Insert? then p
    else
      var world := D.Next(cfg.retries, p.world, step);
      p.(world := world, system := p.system.(db := p.system.db.(outbox := world.sender.rows)))
  }

  function Next(cfg: Config, p: Pipe, step: Step): Pipe {
    match step
    case Write(write) => WriteStep(cfg, p, write)
    case Deliver(d) => DeliverStep(cfg, p, d)
  }

  function Run(cfg: Config, steps: seq<Step>): Pipe {
    if steps == [] then Start(cfg) else Next(cfg, Run(cfg, steps[..|steps| - 1]), steps[|steps| - 1])
  }

  // ---------- every outbox row is a stored event's ----------

  predicate OriginStored(log: seq<StoreRow>, origins: map<Id, StoreRow>, id: Id) {
    id in origins ==> origins[id] in log
  }

  ghost predicate Traced(t: Tables, issued: set<Id>, origins: map<Id, StoreRow>) {
    && origins.Keys == issued
    && (forall id :: OriginStored(t.eventStore, origins, id))
    && (forall r :: r in t.outbox ==>
          r.id in origins && origins[r.id].event == r.event && origins[r.id].aggregateId == r.aggregateId)
    && (forall x :: x in t.eventStore ==> exists id :: id in origins && origins[id] == x)
    && OneIdEach(origins)
  }

  /** No two outbox ids carry the same stored row. */
  ghost predicate OneIdEach(origins: map<Id, StoreRow>) {
    forall i, j :: i in origins && j in origins && origins[i] == origins[j] ==> i == j
  }

  lemma NewRowKeepsOneIdEach(t: Tables, debug: bool, a: Id, version: int, e: Event, s: Stamp, origins: map<Id, StoreRow>)
    requires OneIdEach(origins) && (forall id :: OriginStored(t.eventStore, origins, id))
    requires AppendOne(t, debug, a, version, e, s).Ok?
    ensures OneIdEach(origins[s.outboxId := StoreRow(s.rowId, a, version, e, s.at)])
  {
    var row := StoreRow(s.rowId, a, version, e, s.at);
    var noted := origins[s.outboxId := row];
    assert !Clashes(t.eventStore, row);
    assert row !in t.eventStore;
    forall i, j | i in noted && j in noted && noted[i] == noted[j] ensures i == j {
      assert OriginStored(t.eventStore, origins, i) && OriginStored(t.eventStore, origins, j);
    }
  }

  lemma OneRowKeepsTrace(t: Tables, debug: bool, a: Id, version: int, e: Event, s: Stamp,
                         issued: set<Id>, origins: map<Id, StoreRow>)
    requires Traced(t, issued, origins) && s.outboxId !in issued && AppendOne(t, debug, a, version, e, s).Ok?
    ensures Traced(AppendOne(t, debug, a, version, e, s).value, issued + {s.outboxId},
                   origins[s.outboxId := StoreRow(s.rowId, a, version, e, s.at)])
  {
    AppendOneShape(t, debug, a, version, e, s);
    var u, row := AppendOne(t, debug, a, version, e, s).value, StoreRow(s.rowId, a, version, e, s.at);
    var noted := origins[s.outboxId := row];
    NewRowKeepsOneIdEach(t, debug, a, version, e, s, origins);
    forall id ensures OriginStored(u.eventStore, noted, id) {
      assert OriginStored(t.eventStore, origins, id);
    }
    forall x | x in u.eventStore ensures exists id :: id in noted && noted[id] == x {
      if x in t.eventStore {
        var id :| id in origins && origins[id] == x;
        assert id in noted && noted[id] == x;
      } else {
        assert noted[s.outboxId] == x;
      }
    }
  }

  lemma IdsFront(stamps: seq<Stamp>)
    requires stamps != []
    ensures OutboxIds(stamps) == {stamps[0].outboxId} + OutboxIds(stamps[1..])
  {
    forall id | id in OutboxIds(stamps) ensures id in {stamps[0].outboxId} + OutboxIds(stamps[1..]) {
      var i :| 0 <= i < |stamps| && stamps[i].outboxId == id;
      if i > 0 {
        assert stamps[1..][i - 1].outboxId == id;
      }
    }
    forall id | id in OutboxIds(stamps[1..]) ensures id in OutboxIds(stamps) {
      var i :| 0 <= i < |stamps[1..]| && stamps[1..][i].outboxId == id;
      assert stamps[i + 1].outboxId == id;
    }
  }

  /** The ids of one batch differ: the outbox refuses a repeated one. */
  lemma {:induction false} IdsOfABatchDiffer(t: Tables, debug: bool, a: Id, expected: int, events: seq<Event>,
                                             stamps: seq<Stamp>, id: Id)
    requires |stamps| == |events| && AppendAll(t, debug, a, expected, events, stamps).Ok?
    requires exists r :: r in t.outbox && r.id == id
    ensures forall i :: 0 <= i < |stamps| ==> stamps[i].outboxId != id
    decreases |events|
  {
    if events != [] {
      AppendOneShape(t, debug, a, expected + 1, events[0], stamps[0]);
      var u := AppendOne(t, debug, a, expected + 1, events[0], stamps[0]).value;
      var r :| r in t.outbox && r.id == id;
      assert r in u.outbox;
      IdsOfABatchDiffer(u, debug, a, expected + 1, events[1..], stamps[1..], id);
      forall i | 0 <= i < |stamps| ensures stamps[i].outboxId != id {
        if i > 0 {
          assert stamps[i] == stamps[1..][i - 1];
        }
      }
    }
  }

  lemma RestIsFresh(t: Tables, debug: bool, a: Id, expected: int, events: seq<Event>, stamps: seq<Stamp>, issued: set<Id>)
    requires |stamps| == |events| > 0 && AppendAll(t, debug, a, expected, events, stamps).Ok?
    requires FreshIds(stamps, issued)
    ensures FreshIds(stamps[1..], issued + {stamps[0].outboxId})
  {
    AppendOneShape(t, debug, a, expected + 1, events[0], stamps[0]);
    var u := AppendOne(t, debug, a, expected + 1, events[0], stamps[0]).value;
    assert u.outbox[|t.outbox|].id == stamps[0].outboxId;
    assert u.outbox[|t.outbox|] in u.outbox;
    IdsOfABatchDiffer(u, debug, a, expected + 1, events[1..], stamps[1..], stamps[0].outboxId);
  }

  lemma {:induction false} AppendKeepsTrace(t: Tables, debug: bool, a: Id, expected: int, events: seq<Event>,
                                            stamps: seq<Stamp>, issued: set<Id>, origins: map<Id, StoreRow>)
    requires |stamps| == |events| && AppendAll(t, debug, a, expected, events, stamps).Ok?
    requires Traced(t, issued, origins) && FreshIds(stamps, issued)
    ensures Traced(AppendAll(t, debug, a, expected, events, stamps).value, issued + OutboxIds(stamps),
                   Noted(origins, a, expected, events, stamps))
    decreases |events|
  {
    if events == [] {
      assert issued + OutboxIds(stamps) == issued;
    } else {
      var s, one := stamps[0], AppendOne(t, debug, a, expected + 1, events[0], stamps[0]);
      OneRowKeepsTrace(t, debug, a, expected + 1, events[0], s, issued, origins);
      RestIsFresh(t, debug, a, expected, events, stamps, issued);
      IdsFront(stamps);
      assert issued + {s.outboxId} + OutboxIds(stamps[1..]) == issued + OutboxIds(stamps);
      AppendKeepsTrace(one.value, debug, a, expected + 1, events[1..], stamps[1..], issued + {s.outboxId},
                       origins[s.outboxId := StoreRow(s.rowId, a, expected + 1, events[0], s.at)]);
    }
  }

  /** Publishing changes delivery columns, and deleting removes rows; neither makes a row. */
  lemma SendingMakesNoRow(retries: int, s: D.Sender, now: Time, send: D.Send, r: OutboxRow) returns (x: OutboxRow)
    requires !send.Insert? && r in D.SendStep(retries, s, now, send).rows
    ensures x in s.rows && x.id == r.id && x.event == r.event && x.aggregateId == r.aggregateId
  {
    var rows := D.SendStep(retries, s, now, send).rows;
    var i :| 0 <= i < |rows| && rows[i] == r;
    if send.Purge? {
      DeletionSelects(s.rows, send.cutoff, r);
      x := r;
    } else {
      x := s.rows[i];
    }
  }

  lemma SendingIssuesNothing(retries: int, s: D.Sender, now: Time, send: D.Send)
    requires !send.Insert?
    ensures D.SendStep(retries, s, now, send).issued == s.issued
  {
  }

  ghost predicate PipeOk(p: Pipe) {
    && p.system.db.outbox == p.world.sender.rows
    && Traced(p.system.db, p.world.sender.issued, p.origins)
    && W.Sound(p.system)
  }

  lemma SavedTables(system: W.System, write: W.Step, debug: bool)
    requires write.Save? && write.c in system.editing && |write.stamps| == |system.editing[write.c].uncommitted|
    requires Commit(system.db, debug, system.editing[write.c], write.stamps).Ok?
    ensures W.Next(system, write, debug).db == Commit(system.db, debug, system.editing[write.c], write.stamps).value
  {
  }

  lemma AppendTraces(t: Tables, debug: bool, a: Id, expected: int, events: seq<Event>, stamps: seq<Stamp>, u: Tables,
                     issued: set<Id>, origins: map<Id, StoreRow>, ids: set<Id>, noted: map<Id, StoreRow>)
    requires |stamps| == |events| && AppendAll(t, debug, a, expected, events, stamps) == Ok(u)
    requires Traced(t, issued, origins) && FreshIds(stamps, issued)
    requires ids == issued + OutboxIds(stamps) && noted == Noted(origins, a, expected, events, stamps)
    ensures Traced(u, ids, noted)
  {
    AppendKeepsTrace(t, debug, a, expected, events, stamps, issued, origins);
  }

  lemma RecordedIsOk(p: Pipe, debug: bool, a: Aggregate, stamps: seq<Stamp>, system: W.System)
    requires PipeOk(p) && W.Sound(system) && |stamps| == |a.uncommitted|
    requires Commit(p.system.db, debug, a, stamps) == Ok(system.db) && FreshIds(stamps, p.world.sender.issued)
    ensures PipeOk(Recorded(p, system, a, stamps))
  {
    var q := Recorded(p, system, a, stamps);
    AppendTraces(p.system.db, debug, a.core.paymentId, a.version - |a.uncommitted|, a.uncommitted, stamps, system.db,
                 p.world.sender.issued, p.origins, q.world.sender.issued, q.origins);
  }

  lemma SameTablesStayOk(p: Pipe, system: W.System)
    requires PipeOk(p) && W.Sound(system)
    requires system.db.eventStore == p.system.db.eventStore && system.db.outbox == p.system.db.outbox
    ensures PipeOk(p.(system := system))
  {
    assert Traced(p.system.db, p.world.sender.issued, p.origins);
  }

  lemma WriteKeepsPipe(cfg: Config, p: Pipe, write: W.Step)
    requires PipeOk(p)
    ensures PipeOk(WriteStep(cfg, p, write))
  {
    if !Skipped(p, write) {
      var system := W.Next(p.system, write, cfg.debug);
      var c := Committed(p, cfg.debug, write);
      W.StepKeepsSound(p.system, write, cfg.debug);
      if c.Some? {
        SavedTables(p.system, write, cfg.debug);
        RecordedIsOk(p, cfg.debug, c.value, write.stamps, system);
      } else {
        OthersLeaveTheTables(p.system, write, cfg.debug);
        SameTablesStayOk(p, system);
      }
    }
  }

  lemma OthersLeaveTheTables(system: W.System, write: W.Step, debug: bool)
    requires !write.Save? || write.c !in system.editing || |write.stamps| != |system.editing[write.c].uncommitted|
             || Commit(system.db, debug, system.editing[write.c], write.stamps).Err?
    requires !write.Touch? && !write.Purge?
    ensures var t := W.Next(system, write, debug).db;
            t.eventStore == system.db.eventStore && t.outbox == system.db.outbox
  {
  }

  lemma OutboxChangeKeepsSound(system: W.System, outbox: seq<OutboxRow>)
    requires W.Sound(system)
    ensures W.Sound(system.(db := system.db.(outbox := outbox)))
  {
  }

  lemma DeliverKeepsPipe(cfg: Config, p: Pipe, step: D.Step)
    requires PipeOk(p)
    ensures PipeOk(DeliverStep(cfg, p, step))
  {
    if !(step.Send? && step.send.Insert?) {
      var q := DeliverStep(cfg, p, step);
      OutboxChangeKeepsSound(p.system, q.world.sender.rows);
      if step.Send? {
        SendingIssuesNothing(cfg.retries, p.world.sender, p.world.now, step.send);
        forall r | r in q.world.sender.rows
          ensures r.id in p.origins && p.origins[r.id].event == r.event && p.origins[r.id].aggregateId == r.aggregateId
        {
          var x := SendingMakesNoRow(cfg.retries, p.world.sender, p.world.now, step.send, r);
        }
      }
    }
  }

  lemma {:induction false} EveryPipeIsOk(cfg: Config, steps: seq<Step>)
    ensures PipeOk(Run(cfg, steps))
  {
    if steps == [] {
      W.EveryRunIsSound([], cfg.debug);
    } else {
      var p := Run(cfg, steps[..|steps| - 1]);
      EveryPipeIsOk(cfg, steps[..|steps| - 1]);
      match steps[|steps| - 1] {
        case Write(write) => WriteKeepsPipe(cfg, p, write);
        case Deliver(d) => DeliverKeepsPipe(cfg, p, d);
      }
    }
  }

  // ---------- the pipeline is a delivery run ----------

  function Inserts(a: Id, events: seq<Event>, stamps: seq<Stamp>): (r: seq<D.Step>)
    requires |stamps| == |events|
    ensures |r| == |events|
  {
    seq(|events|, i requires 0 <= i < |events| =>
      D.Step.Send(D.Insert(a, stamps[i].outboxId, events[i], stamps[i].at)))
  }

  /** A committed save is one insert for each of its events; every delivery step is itself. */
  function Expand(cfg: Config, p: Pipe, step: Step): seq<D.Step> {
    match step
    case Deliver(d) => if d.Send? && d.send.Insert? then [] else [d]
    case Write(write) =>
      var c := Committed(p, cfg.debug, write);
      if c.Some? && FreshIds(write.stamps, p.world.sender.issued)
      then Inserts(c.value.core.paymentId, c.value.uncommitted, write.stamps)
      else []
  }

  function Deliveries(cfg: Config, steps: seq<Step>): seq<D.Step> {
    if steps == [] then []
    else
      Deliveries(cfg, steps[..|steps| - 1]) + Expand(cfg, Run(cfg, steps[..|steps| - 1]), steps[|steps| - 1])
  }

  lemma OneInsert(retries: int, w: D.World, t: Tables, debug: bool, a: Id, version: int, e: Event, s: Stamp)
    requires t.outbox == w.sender.rows && AppendOne(t, debug, a, version, e, s).Ok? && s.outboxId !in w.sender.issued
    ensures D.Next(retries, w, D.Step.Send(D.Insert(a, s.outboxId, e, s.at)))
         == w.(sender := w.sender.(rows := AppendOne(t, debug, a, version, e, s).value.outbox,
                                   issued := w.sender.issued + {s.outboxId}))
  {
    AppendOneShape(t, debug, a, version, e, s);
  }

  lemma InsertsFront(ds: seq<D.Step>, a: Id, events: seq<Event>, stamps: seq<Stamp>)
    requires |stamps| == |events| > 0
    ensures ds + Inserts(a, events, stamps)
         == ds + [D.Step.Send(D.Insert(a, stamps[0].outboxId, events[0], stamps[0].at))]
            + Inserts(a, events[1..], stamps[1..])
  {
  }

  lemma OneInsertPlays(retries: int, begin: Time, ds: seq<D.Step>, w: D.World, t: Tables, debug: bool, a: Id,
                       version: int, e: Event, s: Stamp)
    requires D.Play(retries, begin, ds) == w
    requires t.outbox == w.sender.rows && AppendOne(t, debug, a, version, e, s).Ok? && s.outboxId !in w.sender.issued
    ensures D.Play(retries, begin, ds + [D.Step.Send(D.Insert(a, s.outboxId, e, s.at))])
         == Appended(w, AppendOne(t, debug, a, version, e, s).value.outbox, {s.outboxId})
  {
    OneInsert(retries, w, t, debug, a, version, e, s);
    D.PlaySnoc(retries, begin, ds, D.Step.Send(D.Insert(a, s.outboxId, e, s.at)));
  }

  lemma {:induction false} AppendIsInserts(retries: int, begin: Time, ds: seq<D.Step>, w: D.World, t: Tables, debug: bool,
                                           a: Id, expected: int, events: seq<Event>, stamps: seq<Stamp>)
    requires D.Play(retries, begin, ds) == w && t.outbox == w.sender.rows
    requires |stamps| == |events| && AppendAll(t, debug, a, expected, events, stamps).Ok?
    requires FreshIds(stamps, w.sender.issued)
    ensures D.Play(retries, begin, ds + Inserts(a, events, stamps))
         == Appended(w, AppendAll(t, debug, a, expected, events, stamps).value.outbox, OutboxIds(stamps))
    decreases |events|
  {
    if events == [] {
      assert ds + Inserts(a, events, stamps) == ds && w.sender.issued + OutboxIds(stamps) == w.sender.issued;
    } else {
      var s, u := stamps[0], AppendOne(t, debug, a, expected + 1, events[0], stamps[0]).value;
      var insert := D.Step.Send(D.Insert(a, s.outboxId, events[0], s.at));
      var v := Appended(w, u.outbox, {s.outboxId});
      OneInsertPlays(retries, begin, ds, w, t, debug, a, expected + 1, events[0], s);
      RestIsFresh(t, debug, a, expected, events, stamps, w.sender.issued);
      AppendIsInserts(retries, begin, ds + [insert], v, u, debug, a, expected + 1, events[1..], stamps[1..]);
      InsertsFront(ds, a, events, stamps);
      IdsFront(stamps);
      assert w.sender.issued + {s.outboxId} + OutboxIds(stamps[1..]) == w.sender.issued + OutboxIds(stamps);
    }
  }

  lemma CommitPlays(retries: int, begin: Time, ds: seq<D.Step>, w: D.World, t: Tables, debug: bool, a: Aggregate,
                    stamps: seq<Stamp>, u: Tables)
    requires D.Play(retries, begin, ds) == w && t.outbox == w.sender.rows
    requires |stamps| == |a.uncommitted| && Commit(t, debug, a, stamps) == Ok(u) && FreshIds(stamps, w.sender.issued)
    ensures D.Play(retries, begin, ds + Inserts(a.core.paymentId, a.uncommitted, stamps))
         == Appended(w, u.outbox, OutboxIds(stamps))
  {
    AppendIsInserts(retries, begin, ds, w, t, debug, a.core.paymentId, a.version - |a.uncommitted|, a.uncommitted, stamps);
  }

  lemma CommitIsInserts(cfg: Config, ds: seq<D.Step>, p: Pipe, write: W.Step, a: Aggregate)
    requires p.system.db.outbox == p.world.sender.rows && D.Play(cfg.retries, cfg.begin, ds) == p.world
    requires Committed(p, cfg.debug, write) == Some(a) && FreshIds(write.stamps, p.world.sender.issued)
    ensures D.Play(cfg.retries, cfg.begin, ds + Inserts(a.core.paymentId, a.uncommitted, write.stamps))
         == Appended(p.world, W.Next(p.system, write, cfg.debug).db.outbox, OutboxIds(write.stamps))
  {
    SavedTables(p.system, write, cfg.debug);
    CommitPlays(cfg.retries, cfg.begin, ds, p.world, p.system.db, cfg.debug, a, write.stamps,
                W.Next(p.system, write, cfg.debug).db);
  }

  lemma WriteIsInserts(cfg: Config, ds: seq<D.Step>, p: Pipe, write: W.Step)
    requires p.system.db.outbox == p.world.sender.rows && D.Play(cfg.retries, cfg.begin, ds) == p.world
    ensures D.Play(cfg.retries, cfg.begin, ds + Expand(cfg, p, Write(write))) == WriteStep(cfg, p, write).world
  {
    var c := Committed(p, cfg.debug, write);
    if c.Some? && FreshIds(write.stamps, p.world.sender.issued) {
      CommitIsInserts(cfg, ds, p, write, c.value);
    } else {
      assert ds + [] == ds;
    }
  }

  /**
    The publishers and the consumer of the pipeline are a run of the delivery world whose inserts are committed saves.
   */
  lemma {:induction false} PipelineIsADelivery(cfg: Config, steps: seq<Step>)
    ensures Run(cfg, steps).world == D.Play(cfg.retries, cfg.begin, Deliveries(cfg, steps))
  {
    if steps != [] {
      var init, last := steps[..|steps| - 1], steps[|steps| - 1];
      var p, ds := Run(cfg, init), Deliveries(cfg, init);
      PipelineIsADelivery(cfg, init);
      EveryPipeIsOk(cfg, init);
      match last {
        case Write(write) => WriteIsInserts(cfg, ds, p, write);
        case Deliver(d) =>
          if d.Send? && d.send.Insert? {
            assert ds + [] == ds;
          } else {
            D.PlaySnoc(cfg.retries, cfg.begin, ds, d);
          }
      }
    }
  }

  // ---------- from a stored event to its handler ----------

  /** No handler raises, no crash falls between a mark and its handler's return, and the run is shorter than a mark. */
  ghost predicate ShortAndClean(cfg: Config, steps: seq<Step>) {
    && D.CleanRun(cfg.retries, cfg.begin, Deliveries(cfg, steps))
    && Run(cfg, steps).world.now < cfg.begin + C.TTL
  }

  /**
    Nothing is handled that was not committed: in every run, each handled message is the outbox row of a stored event,
    and each stored event has an outbox id.
   */
  lemma HandledEventsAreStored(cfg: Config, steps: seq<Step>, id: Id)
    requires id in Run(cfg, steps).world.reader.handled
    ensures var p := Run(cfg, steps); id in p.origins && p.origins[id] in p.system.db.eventStore
  {
    EveryPipeIsOk(cfg, steps);
    PipelineIsADelivery(cfg, steps);
    D.HandlerCallsAreApart(cfg.retries, cfg.begin, Deliveries(cfg, steps));
    assert OriginStored(Run(cfg, steps).system.db.eventStore, Run(cfg, steps).origins, id);
  }

  /**
    From stored event to handler: on short clean runs every stored event has exactly one outbox id, handled at most once;
    once the consumer has committed the whole log it was handled exactly once if it was sent, and so it was if its row is
    marked published.
   */
  lemma StoredEventsAreHandledOnce(cfg: Config, steps: seq<Step>, x: StoreRow) returns (id: Id)
    requires ShortAndClean(cfg, steps) && x in Run(cfg, steps).system.db.eventStore
    ensures var p := Run(cfg, steps);
            && id in p.origins && p.origins[id] == x && C.AtMostOnce(p.world.reader.handled, id)
            && (forall i :: i in p.origins && p.origins[i] == x ==> i == id)
            && (p.world.reader.committed == |p.world.sender.topic| && id in p.world.sender.topic ==>
                  C.ExactlyOnce(p.world.reader.handled, id))
            && (forall r :: r in p.system.db.outbox && r.id == id ==>
                  r.event == x.event
                  && (p.world.reader.committed == |p.world.sender.topic| && r.publishedAt.Some? ==>
                        C.ExactlyOnce(p.world.reader.handled, id)))
  {
    var p := Run(cfg, steps);
    EveryPipeIsOk(cfg, steps);
    PipelineIsADelivery(cfg, steps);
    D.DeliveredExactlyOnce(cfg.retries, cfg.begin, Deliveries(cfg, steps));
    id :| id in p.origins && p.origins[id] == x;
    if p.world.reader.committed == |p.world.sender.topic| && id in p.world.sender.topic {
      var o :| 0 <= o < |p.world.sender.topic| && p.world.sender.topic[o] == id;
    }
  }
}
