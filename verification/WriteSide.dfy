/**
  The write side as a whole: any number of clients load, command and save aggregates against one database, their steps
  interleaved in every way, together with crashes, rebuilds, the publisher's bookkeeping and the admin's purges.
 */
module WriteSide {
  import opened Basics
  import opened Payments
  import opened Streams
  import opened Storage
  import opened Projection
  import opened Outbox
  import opened EventStore

  /** editing: the aggregates clients hold in memory. */
  datatype System = System(db: Tables, editing: map<nat, Aggregate>)

  datatype Step =
    | Load(c: nat, a: Id, now: Time)
    | Create(c: nat, creation: Creation, paymentId: Id, eventId: Id, now: Time)
    | IssueTo(c: nat, command: Command, eventId: Id, now: Time)
    | Save(c: nat, stamps: seq<Stamp>)
    | Drop(c: nat)
    | Rebuild(order: seq<StoreRow>)
    | Purge(cutoff: Time)
    | Touch(i: nat, publishedAt: Option<Time>, processedAt: Option<Time>, retryCount: nat, errorMessage: Option<string>)

  const EMPTY: System := System(Tables([], [], map[], None), map[])

  /** create_refund's check against the original; whatever goes wrong in loading it is reported as a missing payment. */
  function RefundCheck(log: seq<StoreRow>, creation: Creation, now: Time): Option<PaymentError> {
    if !creation.CreateRefund? then None
    else
      match LoadFrom(log, creation.originalId, now)
      case Err(_) => Some(PaymentNotFound)
      case Ok(original) => if creation.amount > original.core.amount then Some(RefundExceedsOriginal) else None
  }

  function LoadStep(s: System, c: nat, a: Id, now: Time): System {
    match LoadFrom(s.db.eventStore, a, now)
    case Ok(view) => s.(editing := s.editing[c := view])
    case Err(_) => s
  }

  function CreateStep(s: System, c: nat, creation: Creation, paymentId: Id, eventId: Id, now: Time): System {
    if RefundCheck(s.db.eventStore, creation, now).Some? then s
    else
      match Open(creation, paymentId, eventId, now)
      case Ok(view) => s.(editing := s.editing[c := view])
      case Err(_) => s
  }

  function IssueStep(s: System, c: nat, command: Command, eventId: Id, now: Time): System {
    if c !in s.editing then s
    else
      match Do(s.editing[c], command, eventId, now)
      case Ok(view) => s.(editing := s.editing[c := view])
      case Err(_) => s
  }

  /** A save that raises loses the aggregate: its drained events are gone and the service lets the error through. */
  function SaveStep(s: System, c: nat, stamps: seq<Stamp>, debug: bool): System {
    if c !in s.editing || |stamps| != |s.editing[c].uncommitted| then s
    else
      match Commit(s.db, debug, s.editing[c], stamps)
      case Ok(t) => System(t, s.editing[c := s.editing[c].(uncommitted := [])])
      case Err(_) => s.(editing := s.editing - {c})
  }

  function RebuildStep(s: System, order: seq<StoreRow>): System {
    if multiset(order) != multiset(s.db.eventStore) then s
    else
      match Rebuilt(s.db, order)
      case Ok(t) => s.(db := t)
      case Err(_) => s
  }

  function TouchStep(s: System, i: nat, publishedAt: Option<Time>, processedAt: Option<Time>, retryCount: nat,
                     errorMessage: Option<string>): System {
    if i >= |s.db.outbox| then s
    else
      var r := s.db.outbox[i].(publishedAt := publishedAt, processedAt := processedAt,
                               retryCount := retryCount, errorMessage := errorMessage);
      s.(db := s.db.(outbox := s.db.outbox[i := r]))
  }

  function Next(s: System, step: Step, debug: bool): System {
    match step
    case Load(c, a, now) => LoadStep(s, c, a, now)
    case Create(c, creation, paymentId, eventId, now) => CreateStep(s, c, creation, paymentId, eventId, now)
    case IssueTo(c, command, eventId, now) => IssueStep(s, c, command, eventId, now)
    case Save(c, stamps) => SaveStep(s, c, stamps, debug)
    case Drop(c) => s.(editing := s.editing - {c})
    case Rebuild(order) => RebuildStep(s, order)
    case Purge(cutoff) => s.(db := s.db.(outbox := DeleteProcessed(s.db.outbox, cutoff)))
    case Touch(i, publishedAt, processedAt, retryCount, errorMessage) =>
      TouchStep(s, i, publishedAt, processedAt, retryCount, errorMessage)
  }

  function Run(steps: seq<Step>, debug: bool): System {
    if steps == [] then EMPTY else Next(Run(steps[..|steps| - 1], debug), steps[|steps| - 1], debug)
  }

  // ---------- linearizable streams ----------

  /** Versions are exactly 1..n, and every event passed its guard on the events stored before it. */
  ghost predicate StreamOk(rows: seq<StoreRow>, a: Id) {
    && (forall i :: 0 <= i < |rows| ==> rows[i].version == i + 1)
    && (rows != [] ==> Legal(EventsIn(rows)) && rows[0].event.paymentId == a)
  }

  ghost predicate StreamsOk(log: seq<StoreRow>) {
    forall a: Id :: StreamOk(RowsOf(log, a), a)
  }

  ghost predicate Continues(p: Payment, history: seq<Event>) {
    Legal(history) && history[0].paymentId == p.paymentId && Alike(p, Live(history))
  }

  /** What a client builds on: the stored prefix it loaded, then its own events. */
  ghost predicate Builds(rows: seq<StoreRow>, a: Aggregate) {
    var base := a.version - |a.uncommitted|;
    0 <= base <= |rows| && Continues(a.core, EventsIn(rows)[..base] + a.uncommitted)
  }

  ghost predicate ClientsOk(s: System) {
    forall c :: c in s.editing ==> Builds(RowsOf(s.db.eventStore, s.editing[c].core.paymentId), s.editing[c])
  }

  ghost predicate Sound(s: System) {
    StreamsOk(s.db.eventStore) && ClientsOk(s)
  }

  lemma StoredInOrder(log: seq<StoreRow>, a: Id)
    requires StreamOk(RowsOf(log, a), a)
    ensures StoredStream(log, a) == RowsOf(log, a)
  {
    OrderByIdentity(RowsOf(log, a), VersionOf);
  }

  /** Loading a stored stream gives its last version, its writer's fields, and nothing uncommitted. */
  lemma LoadIsFaithful(log: seq<StoreRow>, a: Id, now: Time)
    requires StreamOk(RowsOf(log, a), a)
    ensures LoadFrom(log, a, now).Ok? <==> RowsOf(log, a) != []
    ensures LoadFrom(log, a, now).Ok? ==>
              var view, rows := LoadFrom(log, a, now).value, RowsOf(log, a);
              && view.version == |rows| && view.uncommitted == [] && view.core.paymentId == a
              && Alike(view.core, Live(EventsIn(rows))) && Builds(rows, view)
              && view.core.amount == rows[0].event.body.amount
  {
    StoredInOrder(log, a);
    var rows := RowsOf(log, a);
    if rows != [] {
      var events := EventsIn(rows);
      RehydrateIsLive(events, now);
      LiveKeepsCore(events);
      assert events[..|rows|] + [] == events;
    }
  }

  lemma StaleBaseFails(t: Tables, debug: bool, a: Aggregate, stamps: seq<Stamp>)
    requires StreamOk(RowsOf(t.eventStore, a.core.paymentId), a.core.paymentId)
    requires |stamps| == |a.uncommitted| > 0
    requires 0 <= a.version - |a.uncommitted| < |RowsOf(t.eventStore, a.core.paymentId)|
    ensures Commit(t, debug, a, stamps).Err?
  {
    var base := a.version - |a.uncommitted|;
    var r := RowsOf(t.eventStore, a.core.paymentId)[base];
    RowsOfMembers(t.eventStore, a.core.paymentId, r);
    StaleAppendFails(t, debug, a.core.paymentId, base, a.uncommitted, stamps, r);
  }

  /** A save that commits extends exactly the history its client built on. */
  lemma CommitExtendsHistory(s: System, debug: bool, a: Aggregate, stamps: seq<Stamp>)
    requires StreamsOk(s.db.eventStore)
    requires Builds(RowsOf(s.db.eventStore, a.core.paymentId), a) && |stamps| == |a.uncommitted| > 0
    requires Commit(s.db, debug, a, stamps).Ok?
    ensures var rows := RowsOf(s.db.eventStore, a.core.paymentId);
            a.version - |a.uncommitted| == |rows|
  {
    assert StreamOk(RowsOf(s.db.eventStore, a.core.paymentId), a.core.paymentId);
    if a.version - |a.uncommitted| < |RowsOf(s.db.eventStore, a.core.paymentId)| {
      StaleBaseFails(s.db, debug, a, stamps);
    }
  }

  lemma CommittedEvents(rows: seq<StoreRow>, a: Aggregate, stamps: seq<Stamp>)
    requires |stamps| == |a.uncommitted| && a.version - |a.uncommitted| == |rows|
    ensures EventsIn(rows + NewRows(a.core.paymentId, |rows|, a.uncommitted, stamps))
         == EventsIn(rows)[..|rows|] + a.uncommitted
  {
  }

  /** An aggregate with nothing uncommitted builds on the prefix of its own length. */
  lemma BuildsOnPrefix(rows: seq<StoreRow>, a: Aggregate, history: seq<Event>)
    requires a.uncommitted == [] && 0 <= a.version <= |rows| && history == EventsIn(rows)[..a.version]
    requires Continues(a.core, history)
    ensures Builds(rows, a)
  {
    assert history + [] == history;
  }

  /** One stream after its writer's commit. */
  lemma CommittedOwnStream(rows: seq<StoreRow>, a: Aggregate, stamps: seq<Stamp>)
    requires |stamps| == |a.uncommitted| && StreamOk(rows, a.core.paymentId) && Builds(rows, a)
    requires a.uncommitted == [] || a.version - |a.uncommitted| == |rows|
    ensures var more := NewRows(a.core.paymentId, a.version - |a.uncommitted|, a.uncommitted, stamps);
            StreamOk(rows + more, a.core.paymentId) && Builds(rows + more, a.(uncommitted := []))
  {
    var base := a.version - |a.uncommitted|;
    var more := NewRows(a.core.paymentId, base, a.uncommitted, stamps);
    if a.uncommitted == [] {
      assert rows + more == rows;
    } else {
      var history := EventsIn(rows)[..base] + a.uncommitted;
      CommittedEvents(rows, a, stamps);
      assert EventsIn(rows + more)[..a.version] == history;
      BuildsOnPrefix(rows + more, a.(uncommitted := []), history);
    }
  }

  /** The log after a commit, stream by stream. */
  lemma CommittedStream(log: seq<StoreRow>, a: Aggregate, stamps: seq<Stamp>, b: Id)
    requires StreamsOk(log) && |stamps| == |a.uncommitted|
    requires Builds(RowsOf(log, a.core.paymentId), a)
    requires a.uncommitted == [] || a.version - |a.uncommitted| == |RowsOf(log, a.core.paymentId)|
    ensures var id := a.core.paymentId;
            var more := NewRows(id, a.version - |a.uncommitted|, a.uncommitted, stamps);
            && RowsOf(log + more, b) == (if b == id then RowsOf(log, b) + more else RowsOf(log, b))
            && StreamOk(RowsOf(log + more, b), b)
            && Builds(RowsOf(log + more, id), a.(uncommitted := []))
  {
    var id := a.core.paymentId;
    var more := NewRows(id, a.version - |a.uncommitted|, a.uncommitted, stamps);
    RowsOfAppended(log, more, id, b);
    RowsOfAppended(log, more, id, id);
    assert StreamOk(RowsOf(log, id), id) && StreamOk(RowsOf(log, b), b);
    CommittedOwnStream(RowsOf(log, id), a, stamps);
  }

  lemma BuildsOnLonger(rows: seq<StoreRow>, more: seq<StoreRow>, a: Aggregate)
    requires Builds(rows, a)
    ensures Builds(rows + more, a)
  {
    var base := a.version - |a.uncommitted|;
    assert EventsIn(rows + more)[..base] == EventsIn(rows)[..base];
  }

  /** Another client still builds on the log after a's commit. */
  lemma OthersStillBuild(log: seq<StoreRow>, a: Aggregate, stamps: seq<Stamp>, other: Aggregate)
    requires StreamsOk(log) && |stamps| == |a.uncommitted|
    requires Builds(RowsOf(log, a.core.paymentId), a)
    requires a.uncommitted == [] || a.version - |a.uncommitted| == |RowsOf(log, a.core.paymentId)|
    requires Builds(RowsOf(log, other.core.paymentId), other)
    ensures var more := NewRows(a.core.paymentId, a.version - |a.uncommitted|, a.uncommitted, stamps);
            Builds(RowsOf(log + more, other.core.paymentId), other)
  {
    var more := NewRows(a.core.paymentId, a.version - |a.uncommitted|, a.uncommitted, stamps);
    CommittedStream(log, a, stamps, other.core.paymentId);
    if other.core.paymentId == a.core.paymentId {
      BuildsOnLonger(RowsOf(log, other.core.paymentId), more, other);
    }
  }

  ghost predicate MayCommit(s: System, c: nat, stamps: seq<Stamp>, log: seq<StoreRow>) {
    && c in s.editing && |stamps| == |s.editing[c].uncommitted|
    && var a := s.editing[c];
       && log == s.db.eventStore + NewRows(a.core.paymentId, a.version - |a.uncommitted|, a.uncommitted, stamps)
       && (a.uncommitted == [] || a.version - |a.uncommitted| == |RowsOf(s.db.eventStore, a.core.paymentId)|)
  }

  lemma CommitKeepsStreams(log: seq<StoreRow>, a: Aggregate, stamps: seq<Stamp>)
    requires StreamsOk(log) && |stamps| == |a.uncommitted|
    requires Builds(RowsOf(log, a.core.paymentId), a)
    requires a.uncommitted == [] || a.version - |a.uncommitted| == |RowsOf(log, a.core.paymentId)|
    ensures StreamsOk(log + NewRows(a.core.paymentId, a.version - |a.uncommitted|, a.uncommitted, stamps))
  {
    var more := NewRows(a.core.paymentId, a.version - |a.uncommitted|, a.uncommitted, stamps);
    forall b: Id ensures StreamOk(RowsOf(log + more, b), b) {
      CommittedStream(log, a, stamps, b);
    }
  }

  lemma CommitKeepsClients(s: System, c: nat, stamps: seq<Stamp>, log: seq<StoreRow>, d: nat)
    requires Sound(s) && MayCommit(s, c, stamps, log) && d in s.editing
    ensures var a := if d == c then s.editing[c].(uncommitted := []) else s.editing[d];
            Builds(RowsOf(log, a.core.paymentId), a)
  {
    assert Builds(RowsOf(s.db.eventStore, s.editing[c].core.paymentId), s.editing[c]);
    assert Builds(RowsOf(s.db.eventStore, s.editing[d].core.paymentId), s.editing[d]);
    if d == c {
      CommittedStream(s.db.eventStore, s.editing[c], stamps, s.editing[c].core.paymentId);
    } else {
      OthersStillBuild(s.db.eventStore, s.editing[c], stamps, s.editing[d]);
    }
  }

  lemma CommitKeepsSound(s: System, c: nat, stamps: seq<Stamp>, t: Tables)
    requires Sound(s) && MayCommit(s, c, stamps, t.eventStore)
    ensures Sound(System(t, s.editing[c := s.editing[c].(uncommitted := [])]))
  {
    assert Builds(RowsOf(s.db.eventStore, s.editing[c].core.paymentId), s.editing[c]);
    CommitKeepsStreams(s.db.eventStore, s.editing[c], stamps);
    var after := System(t, s.editing[c := s.editing[c].(uncommitted := [])]);
    forall d | d in after.editing
      ensures Builds(RowsOf(t.eventStore, after.editing[d].core.paymentId), after.editing[d])
    {
      CommitKeepsClients(s, c, stamps, t.eventStore, d);
    }
  }

  /** A commit lands at the end of its stream, with the client's events and the next versions. */
  lemma CommitIsAtTheEnd(s: System, a: Aggregate, stamps: seq<Stamp>, debug: bool)
    requires StreamsOk(s.db.eventStore) && |stamps| == |a.uncommitted|
    requires Builds(RowsOf(s.db.eventStore, a.core.paymentId), a)
    requires Commit(s.db, debug, a, stamps).Ok?
    ensures Commit(s.db, debug, a, stamps).value.eventStore
         == s.db.eventStore + NewRows(a.core.paymentId, a.version - |a.uncommitted|, a.uncommitted, stamps)
    ensures a.uncommitted == [] || a.version - |a.uncommitted| == |RowsOf(s.db.eventStore, a.core.paymentId)|
  {
    if a.uncommitted != [] {
      CommitExtendsHistory(s, debug, a, stamps);
    }
    AppendShape(s.db, debug, a.core.paymentId, a.version - |a.uncommitted|, a.uncommitted, stamps);
  }

  lemma CommittedSaveKeepsSound(s: System, c: nat, stamps: seq<Stamp>, debug: bool, t: Tables)
    requires Sound(s) && c in s.editing && |stamps| == |s.editing[c].uncommitted|
    requires Commit(s.db, debug, s.editing[c], stamps) == Ok(t)
    ensures Sound(System(t, s.editing[c := s.editing[c].(uncommitted := [])]))
  {
    assert Builds(RowsOf(s.db.eventStore, s.editing[c].core.paymentId), s.editing[c]);
    CommitIsAtTheEnd(s, s.editing[c], stamps, debug);
    assert MayCommit(s, c, stamps, t.eventStore);
    CommitKeepsSound(s, c, stamps, t);
  }

  lemma DropKeepsSound(s: System, c: nat)
    requires Sound(s)
    ensures Sound(s.(editing := s.editing - {c}))
  {
  }

  lemma SaveKeepsSound(s: System, c: nat, stamps: seq<Stamp>, debug: bool)
    requires Sound(s)
    ensures Sound(SaveStep(s, c, stamps, debug))
  {
    if c in s.editing && |stamps| == |s.editing[c].uncommitted| {
      var r := Commit(s.db, debug, s.editing[c], stamps);
      if r.Ok? {
        CommittedSaveKeepsSound(s, c, stamps, debug, r.value);
      } else {
        DropKeepsSound(s, c);
      }
    }
  }

  lemma CreateKeepsSound(s: System, c: nat, creation: Creation, paymentId: Id, eventId: Id, now: Time)
    requires Sound(s)
    ensures Sound(CreateStep(s, c, creation, paymentId, eventId, now))
  {
    if Open(creation, paymentId, eventId, now).Ok? {
      var view := Open(creation, paymentId, eventId, now).value;
      OpenWritesGenesis(creation, paymentId, eventId, now);
      LiveKeepsCore(view.uncommitted);
      var rows := RowsOf(s.db.eventStore, paymentId);
      assert EventsIn(rows)[..0] + view.uncommitted == view.uncommitted;
      assert Builds(rows, view);
    }
  }

  lemma BuildsOneMore(rows: seq<StoreRow>, a: Aggregate, e: Event, history: seq<Event>)
    requires 0 <= a.version - |a.uncommitted| <= |rows|
    requires history == EventsIn(rows)[..a.version - |a.uncommitted|] + a.uncommitted
    requires Continues(When(a.core, e), history + [e])
    ensures Builds(rows, Record(a, e))
  {
    var b := Record(a, e);
    assert b.version - |b.uncommitted| == a.version - |a.uncommitted|;
    assert EventsIn(rows)[..b.version - |b.uncommitted|] + b.uncommitted == history + [e];
  }

  lemma HandlerKeepsId(p: Payment, e: Event)
    ensures When(p, e).paymentId == p.paymentId
  {
  }

  lemma CommandContinues(a: Aggregate, history: seq<Event>, command: Command, eventId: Id, now: Time)
    requires Continues(a.core, history) && Do(a, command, eventId, now).Ok?
    ensures var e := Emit(a.core, command, eventId, now);
            && Do(a, command, eventId, now).value == Record(a, e)
            && Continues(When(a.core, e), history + [e])
  {
    DoKeepsLegal(a, history, command, eventId, now);
    HandlerKeepsId(a.core, Emit(a.core, command, eventId, now));
  }

  lemma IssueKeepsBuilds(rows: seq<StoreRow>, a: Aggregate, command: Command, eventId: Id, now: Time)
    requires Builds(rows, a) && Do(a, command, eventId, now).Ok?
    ensures Builds(rows, Do(a, command, eventId, now).value)
    ensures Do(a, command, eventId, now).value.core.paymentId == a.core.paymentId
  {
    var history := EventsIn(rows)[..a.version - |a.uncommitted|] + a.uncommitted;
    CommandContinues(a, history, command, eventId, now);
    HandlerKeepsId(a.core, Emit(a.core, command, eventId, now));
    BuildsOneMore(rows, a, Emit(a.core, command, eventId, now), history);
  }

  lemma IssueKeepsSound(s: System, c: nat, command: Command, eventId: Id, now: Time)
    requires Sound(s)
    ensures Sound(IssueStep(s, c, command, eventId, now))
  {
    if c in s.editing && Do(s.editing[c], command, eventId, now).Ok? {
      IssueKeepsBuilds(RowsOf(s.db.eventStore, s.editing[c].core.paymentId), s.editing[c], command, eventId, now);
    }
  }

  lemma LoadKeepsSound(s: System, c: nat, a: Id, now: Time)
    requires Sound(s)
    ensures Sound(LoadStep(s, c, a, now))
  {
    assert StreamOk(RowsOf(s.db.eventStore, a), a);
    LoadIsFaithful(s.db.eventStore, a, now);
  }

  lemma StepKeepsSound(s: System, step: Step, debug: bool)
    requires Sound(s)
    ensures Sound(Next(s, step, debug))
  {
    match step {
      case Load(c, a, now) => LoadKeepsSound(s, c, a, now);
      case Create(c, creation, paymentId, eventId, now) => CreateKeepsSound(s, c, creation, paymentId, eventId, now);
      case IssueTo(c, command, eventId, now) => IssueKeepsSound(s, c, command, eventId, now);
      case Save(c, stamps) => SaveKeepsSound(s, c, stamps, debug);
      case Drop(c) => DropKeepsSound(s, c);
      case Rebuild(order) =>
      case Purge(_) =>
      case Touch(_, _, _, _, _) =>
    }
  }

  lemma {:induction false} EveryRunIsSound(steps: seq<Step>, debug: bool)
    ensures Sound(Run(steps, debug))
  {
    if steps != [] {
      EveryRunIsSound(steps[..|steps| - 1], debug);
      StepKeepsSound(Run(steps[..|steps| - 1], debug), steps[|steps| - 1], debug);
    }
  }

  /**
    Linearizable streams: in every run, whatever the interleaving, each stored stream reads back in version order as
    versions 1..n, and each event passed its guard on exactly the events stored before it.
   */
  lemma StreamsAreLinearizable(steps: seq<Step>, debug: bool, a: Id, i: nat)
    requires i < |StoredStream(Run(steps, debug).db.eventStore, a)|
    ensures var rows := StoredStream(Run(steps, debug).db.eventStore, a);
            && rows[i].version == i + 1 && rows[i].event.paymentId == a
            && (i == 0 ==> Genesis(rows[0].event))
            && (i > 0 ==> Legal(EventsIn(rows)[..i]) && Follows(Live(EventsIn(rows)[..i]), rows[i].event))
  {
    var log := Run(steps, debug).db.eventStore;
    EveryRunIsSound(steps, debug);
    assert StreamOk(RowsOf(log, a), a);
    StoredInOrder(log, a);
    var events := EventsIn(RowsOf(log, a));
    LegalIdentity(events, i);
    if i > 0 {
      EveryEventPassedItsGuard(events, i);
    }
  }

  /** Where a row of the log sits in its own stream. */
  lemma {:induction false} PlaceInStream(log: seq<StoreRow>, i: nat)
    requires i < |log|
    ensures var a := log[i].aggregateId;
            var k := |RowsOf(log[..i], a)|;
            k < |RowsOf(log, a)| && RowsOf(log, a)[k] == log[i]
            && forall j: nat :: j <= i ==> |RowsOf(log[..j], a)| <= k
  {
    var n := |log| - 1;
    var a := log[i].aggregateId;
    if i == n {
      forall j: nat | j <= i ensures |RowsOf(log[..j], a)| <= |RowsOf(log[..i], a)| {
        PrefixCountGrows(log, j, i, a);
      }
    } else {
      PlaceInStream(log[..n], i);
      assert log[..n][..i] == log[..i];
      forall j: nat | j <= i ensures |RowsOf(log[..j], a)| <= |RowsOf(log[..i], a)| {
        PrefixCountGrows(log, j, i, a);
      }
    }
  }

  lemma {:induction false} PrefixCountGrows(log: seq<StoreRow>, j: nat, i: nat, a: Id)
    requires j <= i <= |log|
    ensures |RowsOf(log[..j], a)| <= |RowsOf(log[..i], a)|
    ensures j < i && log[j].aggregateId == a ==> |RowsOf(log[..j], a)| < |RowsOf(log[..i], a)|
    decreases i - j
  {
    if j < i {
      assert log[..j + 1] == log[..j] + [log[j]];
      RowsOfSnoc(log[..j], log[j], a);
      PrefixCountGrows(log, j + 1, i, a);
    }
  }

  lemma {:induction false} RowsKeepTheirPayment(steps: seq<Step>, debug: bool)
    ensures RowsCarryTheirPayment(Run(steps, debug).db.eventStore)
  {
    var log := Run(steps, debug).db.eventStore;
    EveryRunIsSound(steps, debug);
    forall r | r in log ensures r.event.paymentId == r.aggregateId {
      var i :| 0 <= i < |log| && log[i] == r;
      PlaceInStream(log, i);
      var rows := RowsOf(log, r.aggregateId);
      assert StreamOk(rows, r.aggregateId);
      LegalIdentity(EventsIn(rows), |RowsOf(log[..i], r.aggregateId)|);
    }
  }

  /** Client-chosen ids: however many requests carry one payment id, one Created event is stored for it at most. */
  lemma OneCreationPerPayment(steps: seq<Step>, debug: bool, i: nat, j: nat)
    requires i < |Run(steps, debug).db.eventStore| && j < |Run(steps, debug).db.eventStore|
    requires var log := Run(steps, debug).db.eventStore;
             && log[i].event.body.Created? && log[j].event.body.Created?
             && log[i].event.paymentId == log[j].event.paymentId
    ensures i == j
  {
    var log := Run(steps, debug).db.eventStore;
    EveryRunIsSound(steps, debug);
    RowsKeepTheirPayment(steps, debug);
    assert log[i] in log && log[j] in log;
    var a := log[i].aggregateId;
    PlaceInStream(log, i);
    PlaceInStream(log, j);
    var rows := RowsOf(log, a);
    assert StreamOk(rows, a);
    LegalIdentity(EventsIn(rows), |RowsOf(log[..i], a)|);
    LegalIdentity(EventsIn(rows), |RowsOf(log[..j], a)|);
    if i < j {
      PrefixCountGrows(log, i, j, a);
    } else if j < i {
      PrefixCountGrows(log, j, i, a);
    }
  }
}
