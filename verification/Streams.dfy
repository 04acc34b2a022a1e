/** Event streams of one payment: which streams commands can write, and what replaying one gives. */
module Streams {
  import opened Basics
  import opened Payments

  // ---------- loading: replay of a stream ----------

  predicate Readable(e: Event) {
    e.body.Created? && ParseType(e.body.ptype).Some? && ParseMethod(e.body.payMethod).Some?
  }

  /** The aggregate built from the fields of the first event. */
  function Base(e: Event, now: Time): Payment
    requires Readable(e)
  {
    Payment(e.paymentId, e.walletId, e.userId, e.body.amount, Upper(e.body.currency),
            ParseType(e.body.ptype).value, ParseMethod(e.body.payMethod).value,
            PENDING, e.body.reference, e.body.description, now, now)
  }

  function Fold(p: Payment, events: seq<Event>): Payment {
    if events == [] then p else When(Fold(p, events[..|events| - 1]), events[|events| - 1])
  }

  /** load(): the first event goes to the initialiser, never through its handler; the others are handled in order. */
  function Rehydrate(events: seq<Event>, now: Time): Result<Payment, PaymentError> {
    if events == [] then Err(PaymentNotFound)
    else if !events[0].body.Created? then Err(UnexpectedFirstEvent)
    else if !Readable(events[0]) then Err(UnknownEnumText)
    else if events[0].body.amount <= 0 then Err(InvalidAmount)
    else Ok(Fold(Base(events[0], now), events[1..]))
  }

  // ---------- streams that successful commands write ----------

  /** A first event that one of the factories emits. */
  predicate Genesis(e: Event) {
    && Readable(e) && e.schemaVersion == 1
    && e.body.amount > 0
    && Upper(e.body.currency) == e.body.currency
    && e.body.description.Some? && e.body.description.value != ""
    && match ParseType(e.body.ptype).value
       case DEPOSIT => e.body.payMethod != "wallet"
       case WITHDRAWAL => e.body.payMethod != "wallet"
       case PAYMENT => e.body.reference.Some?
       case REFUND => e.body.payMethod == "wallet" && e.body.reference.Some?
       case ADJUSTMENT => false
  }

  /** The command whose success emits an event with this body. */
  function CommandOf(b: Body): Option<Command> {
    match b
    case Created(_, _, _, _, _, _) => None
    case Processed => Some(Process)
    case Succeeded => Some(Succeed)
    case Failed(reason) => Some(Fail(reason))
    case Cancelled => Some(Cancel)
    case Refunded(_, _, refundId) => Some(MarkRefunded(refundId))
  }

  /** e passed its guard on state p and is exactly what the command emits there. */
  predicate Follows(p: Payment, e: Event) {
    var c := CommandOf(e.body);
    c.Some? && Guard(p.status, c.value).None? && e == Emit(p, c.value, e.eventId, e.occurredAt)
  }

  /** The state of the aggregate that wrote these events and never left memory. */
  function Live(events: seq<Event>): Payment
    requires events != [] && Readable(events[0])
  {
    if |events| == 1 then Base(events[0], events[0].occurredAt)
    else When(Live(events[..|events| - 1]), events[|events| - 1])
  }

  /** A genesis event, then events that each passed their guard on exactly the events before them. */
  ghost predicate Legal(events: seq<Event>) {
    && events != [] && Genesis(events[0])
    && (|events| > 1 ==>
          Legal(events[..|events| - 1]) && Follows(Live(events[..|events| - 1]), events[|events| - 1]))
  }

  lemma LegalBeginning(events: seq<Event>)
    requires Legal(events)
    ensures events[0].body.Created? && Live(events[..1]).status == PENDING
    ensures events[0].body.amount > 0
  {
  }

  /** The last step of a legal stream: the state before it and the event that followed. */
  lemma LastStep(events: seq<Event>) returns (p: Payment)
    requires Legal(events) && |events| > 1
    ensures Legal(events[..|events| - 1]) && p == Live(events[..|events| - 1])
    ensures Follows(p, events[|events| - 1]) && Live(events) == When(p, events[|events| - 1])
  {
    p := Live(events[..|events| - 1]);
  }

  lemma {:induction false} LegalPrefix(events: seq<Event>, n: nat)
    requires Legal(events) && 0 < n <= |events|
    ensures Legal(events[..n])
  {
    if n == |events| {
      assert events[..n] == events;
    } else {
      LegalPrefix(events[..|events| - 1], n);
      assert events[..|events| - 1][..n] == events[..n];
    }
  }

  lemma LegalSnoc(events: seq<Event>, e: Event)
    requires Legal(events) && Follows(Live(events), e)
    ensures Legal(events + [e])
    ensures Live(events + [e]) == When(Live(events), e)
  {
    assert (events + [e])[..|events|] == events;
  }

  /** What Legal promises of every single event. */
  lemma {:induction false} EveryEventPassedItsGuard(events: seq<Event>, i: nat)
    requires Legal(events) && 1 <= i < |events|
    ensures Legal(events[..i]) && Follows(Live(events[..i]), events[i])
  {
    var p := LastStep(events);
    var init := events[..|events| - 1];
    if i < |init| {
      EveryEventPassedItsGuard(init, i);
      assert init[..i] == events[..i];
    }
  }

  /** Only the first event is a Created event, and every event carries the identifiers of the first. */
  lemma LegalIdentity(events: seq<Event>, i: nat)
    requires Legal(events) && i < |events|
    ensures events[i].body.Created? <==> i == 0
    ensures events[i].paymentId == events[0].paymentId
    ensures events[i].walletId == events[0].walletId && events[i].userId == events[0].userId
    ensures events[i].schemaVersion == 1
    ensures events[i].body.Refunded? ==>
              events[i].body.refundedAmount == events[0].body.amount
              && events[i].body.refundedCurrency == events[0].body.currency
  {
    if i > 0 {
      EveryEventPassedItsGuard(events, i);
      CommandWrites(events[..i], CommandOf(events[i].body).value, events[i].eventId, events[i].occurredAt);
    }
  }

  /** The fields no handler assigns. */
  lemma {:induction false} LiveKeepsCore(events: seq<Event>)
    requires events != [] && Readable(events[0])
    ensures var p, b := Live(events), Base(events[0], events[0].occurredAt);
            && p.paymentId == b.paymentId && p.walletId == b.walletId && p.userId == b.userId
            && p.amount == b.amount && p.currency == b.currency && p.ptype == b.ptype
            && p.payMethod == b.payMethod && p.reference == b.reference
  {
    if |events| > 1 {
      LiveKeepsCore(events[..|events| - 1]);
    }
  }

  /** What a command adds to a stream, told from the command and the stream's first event alone. */
  function WrittenEvent(first: Event, c: Command, eventId: Id, now: Time): Event
    requires first.body.Created?
  {
    var body :=
      match c
      case Process => Processed
      case Succeed => Succeeded
      case Fail(reason) => Failed(reason)
      case Cancel => Cancelled
      case MarkRefunded(refundId) => Refunded(first.body.amount, first.body.currency, refundId);
    Event(eventId, now, 1, first.paymentId, first.walletId, first.userId, body)
  }

  /** Whatever happened before, a command's event names the payment, the wallet and the user of the creation. */
  lemma CommandWrites(events: seq<Event>, c: Command, eventId: Id, now: Time)
    requires Legal(events)
    ensures events[0].body.Created?
    ensures Emit(Live(events), c, eventId, now) == WrittenEvent(events[0], c, eventId, now)
  {
    LegalBeginning(events);
    LiveKeepsCore(events);
  }

  /** What a factory writes, told from its request: currency in capitals, defaults filled in, the text of its kind. */
  function RequestedBody(c: Creation, means: string): Body {
    var (ptype, reference, fallback) :=
      match c
      case CreateDeposit(_, _, _, _, _, ref, _) => ("deposit", ref, "Deposit")
      case CreateWithdrawal(_, _, _, _, _, ref, _) => ("withdrawal", ref, "Withdrawal")
      case CreateForBooking(_, _, _, _, _, booking, _) => ("payment", Some(booking), "Booking payment")
      case CreateRefund(_, _, _, _, original, _) => ("refund", Some(original), "Refund");
    Created(c.amount, Upper(c.currency), ptype, if c.CreateRefund? then "wallet" else means, reference,
            if c.description.None? || c.description.value == "" then Some(fallback) else c.description)
  }

  /** A created payment carries its request. */
  lemma CreationWrites(c: Creation, paymentId: Id, eventId: Id, now: Time)
    requires Open(c, paymentId, eventId, now).Ok?
    ensures var a := Open(c, paymentId, eventId, now).value;
            var means := if c.CreateRefund? then "wallet" else MethodText(c.payMethod);
            && a.uncommitted == [Event(eventId, now, 1, paymentId, c.walletId, c.userId, RequestedBody(c, means))]
            && a.core.createdAt == now && a.core.updatedAt == now
  {
  }

  /** What a factory emits is a genesis event, and the new aggregate is the live state of that one event. */
  lemma OpenWritesGenesis(c: Creation, paymentId: Id, eventId: Id, now: Time)
    requires Open(c, paymentId, eventId, now).Ok?
    ensures var a := Open(c, paymentId, eventId, now).value;
            && |a.uncommitted| == 1 == a.version
            && Genesis(a.uncommitted[0]) && Legal(a.uncommitted)
            && Live(a.uncommitted) == a.core && a.core.paymentId == paymentId
  {
    var a := Open(c, paymentId, eventId, now).value;
    UpperTwice(c.currency);
    TypeTextParses(a.core.ptype);
    MethodTextParses(a.core.payMethod);
    assert forall m :: m != WALLET ==> MethodText(m) != "wallet" by {
      MethodTextParses(WALLET);
      forall m | m != WALLET ensures MethodText(m) != "wallet" {
        MethodTextParses(m);
      }
    }
  }

  lemma ParsedText(s: string, m: string)
    ensures ParseType(s).Some? ==> TypeText(ParseType(s).value) == s
    ensures ParseMethod(m).Some? ==> MethodText(ParseMethod(m).value) == m
  {
  }

  /** Conversely every genesis event is the event of some creation command. */
  lemma GenesisIsOpened(e: Event) returns (c: Creation)
    requires Genesis(e)
    ensures var r := Open(c, e.paymentId, e.eventId, e.occurredAt);
            r.Ok? && r.value.uncommitted == [e]
  {
    var b := e.body;
    ParsedText(b.ptype, b.payMethod);
    var m := ParseMethod(b.payMethod).value;
    match ParseType(b.ptype).value {
      case DEPOSIT => c := CreateDeposit(e.walletId, e.userId, b.amount, b.currency, m, b.reference, b.description);
      case WITHDRAWAL => c := CreateWithdrawal(e.walletId, e.userId, b.amount, b.currency, m, b.reference, b.description);
      case PAYMENT =>
        c := CreateForBooking(e.walletId, e.userId, b.amount, b.currency, m, b.reference.value, b.description);
      case REFUND =>
        c := CreateRefund(e.walletId, e.userId, b.amount, b.currency, b.reference.value, b.description);
    }
  }

  // ---------- what a stream says about its payment ----------

  predicate Has(events: seq<Event>, k: PaymentEventType) {
    exists i :: 0 <= i < |events| && KindOf(events[i].body) == k
  }

  function LastKind(events: seq<Event>): PaymentEventType
    requires events != []
  {
    KindOf(events[|events| - 1].body)
  }

  /** Why a command is refused, told from what has happened to the payment. */
  function Refusal(events: seq<Event>, c: Command): Option<PaymentError>
    requires events != []
  {
    match c
    case Process => if |events| > 1 then Some(AlreadyProcessed) else None
    case Cancel => if |events| > 1 then Some(AlreadyProcessed) else None
    case MarkRefunded(_) => if LastKind(events) != PAYMENT_SUCCEEDED then Some(NotProcessable) else None
    case _ =>
      if Has(events, PAYMENT_SUCCEEDED) then Some(AlreadyProcessed)
      else if Has(events, PAYMENT_CANCELLED) then Some(NotProcessable)
      else None
  }

  lemma HasSnoc(events: seq<Event>, k: PaymentEventType)
    requires events != []
    ensures Has(events, k) <==> Has(events[..|events| - 1], k) || LastKind(events) == k
  {
    var init := events[..|events| - 1];
    if Has(init, k) {
      var i :| 0 <= i < |init| && KindOf(init[i].body) == k;
      assert KindOf(events[i].body) == k;
    }
    if Has(events, k) {
      var i :| 0 <= i < |events| && KindOf(events[i].body) == k;
      assert i < |init| ==> KindOf(init[i].body) == k;
    }
  }

  lemma {:induction false} StatusTellsHistory(events: seq<Event>)
    requires Legal(events)
    ensures var s := Live(events).status;
            && (s == PENDING <==> |events| == 1)
            && (s == SUCCEEDED <==> LastKind(events) == PAYMENT_SUCCEEDED)
            && (s == SUCCEEDED || s == REFUNDED <==> Has(events, PAYMENT_SUCCEEDED))
            && (s == CANCELLED <==> Has(events, PAYMENT_CANCELLED))
  {
    HasSnoc(events, PAYMENT_SUCCEEDED);
    HasSnoc(events, PAYMENT_CANCELLED);
    if |events| == 1 {
      LegalBeginning(events);
      assert events[..1] == events;
    } else {
      var p := LastStep(events);
      StatusTellsHistory(events[..|events| - 1]);
    }
  }

  /**
    The guards in terms of history: processing and cancelling need a fresh payment; succeeding and failing are refused
    once it succeeded or was cancelled, each with its own error; refunding needs the success to be the latest event.
   */
  lemma CommandAnswers(events: seq<Event>, c: Command)
    requires Legal(events)
    ensures Guard(Live(events).status, c) == Refusal(events, c)
  {
    StatusTellsHistory(events);
  }

  /** The two timestamps are those of the first and of the last event. */
  lemma {:induction false} TimesAreOfEvents(events: seq<Event>)
    requires Legal(events)
    ensures Live(events).createdAt == events[0].occurredAt
    ensures Live(events).updatedAt == events[|events| - 1].occurredAt
  {
    if |events| > 1 {
      var p := LastStep(events);
      TimesAreOfEvents(events[..|events| - 1]);
    }
  }

  function Note(e: Event): string {
    if e.body.Failed? && e.body.reason.Some? && e.body.reason.value != ""
    then " [FAILED: " + e.body.reason.value + "]"
    else ""
  }

  /** The notes of all failures that gave a reason, in order. */
  function Notes(events: seq<Event>): string {
    if events == [] then "" else Notes(events[..|events| - 1]) + Note(events[|events| - 1])
  }

  lemma {:induction false} TrimFront(s: string, t: string)
    ensures StripLeft(StripLeft(s) + t) == StripLeft(s + t)
  {
    if s != "" && IsSpace(s[0]) {
      TrimFront(s[1..], t);
      assert (s + t)[1..] == s[1..] + t;
    }
  }

  lemma {:induction false} TrimKeepsEnd(s: string, c: char)
    requires !IsSpace(c)
    ensures StripLeft(s + [c]) != "" && StripLeft(s + [c])[|StripLeft(s + [c])| - 1] == c
  {
    if s != "" && IsSpace(s[0]) {
      TrimKeepsEnd(s[1..], c);
      assert (s + [c])[1..] == s[1..] + [c];
    }
  }

  lemma FailureTextTrims(d: string, reason: string)
    ensures FailureText(Some(d), reason) == StripLeft(d + (" [FAILED: " + reason + "]"))
  {
    TrimKeepsEnd(d + " [FAILED: " + reason, ']');
    assert d + " [FAILED: " + reason + "]" == d + (" [FAILED: " + reason + "]");
  }

  /** The description grows by one note for every failure with a reason; only blanks in front of it are trimmed. */
  function NotedDescription(events: seq<Event>, d: string): string {
    if Notes(events) == "" then d else StripLeft(d + Notes(events))
  }

  lemma NoteIsAppended(d: string, notes: string, note: string)
    requires note != ""
    ensures StripLeft((if notes == "" then d else StripLeft(d + notes)) + note) == StripLeft(d + (notes + note))
  {
    TrimFront(d + notes, note);
    assert d + notes + note == d + (notes + note);
    assert notes == "" ==> notes + note == note;
  }

  /** No failure is forgotten: a live payment's description is its creation's, then the notes of all its failures. */
  lemma {:induction false} EveryFailureIsNoted(events: seq<Event>)
    requires Legal(events)
    ensures events[0].body.description.Some?
    ensures Live(events).description == Some(NotedDescription(events, events[0].body.description.value))
  {
    var e := events[|events| - 1];
    if |events| == 1 {
      LegalBeginning(events);
      assert Notes(events[..0]) == "";
    } else {
      var init := events[..|events| - 1];
      var p := LastStep(events);
      EveryFailureIsNoted(init);
      if Note(e) == "" {
        assert Notes(init) + "" == Notes(init);
      } else {
        FailureTextTrims(p.description.value, e.body.reason.value);
        NoteIsAppended(events[0].body.description.value, Notes(init), Note(e));
      }
    }
  }

  // ---------- replay fidelity ----------

  /** Equal in everything but the two timestamps. */
  predicate Alike(p: Payment, q: Payment) {
    p.(createdAt := q.createdAt, updatedAt := q.updatedAt) == q
  }

  lemma HandlersIgnoreTimestamps(p: Payment, q: Payment, e: Event)
    requires Alike(p, q)
    ensures Alike(When(p, e), When(q, e)) && When(p, e).updatedAt == When(q, e).updatedAt
    ensures !e.body.Created? ==> When(p, e).createdAt == p.createdAt
  {
  }

  lemma {:induction false} FoldIsLive(events: seq<Event>, now: Time)
    requires Legal(events)
    ensures var p := Fold(Base(events[0], now), events[1..]);
            && Alike(p, Live(events)) && p.createdAt == now
            && (|events| > 1 ==> p.updatedAt == Live(events).updatedAt)
  {
    if |events| > 1 {
      var init, last := events[..|events| - 1], events[|events| - 1];
      FoldIsLive(init, now);
      assert events[1..][..|events| - 2] == init[1..];
      HandlersIgnoreTimestamps(Fold(Base(init[0], now), init[1..]), Live(init), last);
    }
  }

  /** Loading a stored stream gives the writer's state; only created_at and a one-event updated_at are lost. */
  lemma RehydrateIsLive(events: seq<Event>, now: Time)
    requires Legal(events)
    ensures var r := Rehydrate(events, now);
            r.Ok? && Alike(r.value, Live(events))
            && (|events| > 1 ==> r.value.updatedAt == Live(events).updatedAt)
            && r.value.createdAt == now
  {
    FoldIsLive(events, now);
  }

  datatype Op = Issue(c: Command, eventId: Id, now: Time) | SaveAndReload(at: Time)

  /** One aggregate in memory and what has been persisted of it. */
  datatype Session = Session(live: Aggregate, stored: seq<Event>)

  function Perform(s: Session, op: Op): Session {
    match op
    case Issue(c, eventId, now) =>
      (match Do(s.live, c, eventId, now)
       case Ok(a) => s.(live := a)
       case Err(_) => s)
    case SaveAndReload(at) =>
      var stored := s.stored + s.live.uncommitted;
      (match Rehydrate(stored, at)
       case Ok(p) => Session(Aggregate(p, |stored|, []), stored)
       case Err(_) => s)
  }

  function Play(s: Session, ops: seq<Op>): Session {
    if ops == [] then s else Perform(Play(s, ops[..|ops| - 1]), ops[|ops| - 1])
  }

  /** The same commands with every save-and-reload taken out. */
  function CommandsOnly(ops: seq<Op>): seq<Op> {
    if ops == [] then []
    else CommandsOnly(ops[..|ops| - 1]) + (if ops[|ops| - 1].Issue? then [ops[|ops| - 1]] else [])
  }

  lemma PlaySnoc(s: Session, ops: seq<Op>, op: Op)
    ensures Play(s, ops + [op]) == Perform(Play(s, ops), op)
  {
    assert (ops + [op])[..|ops|] == ops;
  }

  /** A command reads none of the fields a reload loses. */
  lemma DoIgnoresTimestamps(a: Aggregate, b: Aggregate, c: Command, eventId: Id, now: Time)
    requires Alike(a.core, b.core)
    ensures Do(a, c, eventId, now).Ok? <==> Do(b, c, eventId, now).Ok?
    ensures Do(a, c, eventId, now).Ok? ==>
              var e := Emit(b.core, c, eventId, now);
              && Do(a, c, eventId, now).value == Record(a, e)
              && Do(b, c, eventId, now).value == Record(b, e)
              && Alike(When(a.core, e), When(b.core, e))
              && When(a.core, e).updatedAt == When(b.core, e).updatedAt
  {
    HandlersIgnoreTimestamps(a.core, b.core, Emit(b.core, c, eventId, now));
  }

  /** A successful command on an aggregate whose history is legal keeps the history legal. */
  lemma DoKeepsLegal(a: Aggregate, history: seq<Event>, c: Command, eventId: Id, now: Time)
    requires Legal(history) && Alike(a.core, Live(history)) && Do(a, c, eventId, now).Ok?
    ensures var e := Emit(a.core, c, eventId, now);
            && Do(a, c, eventId, now).value == Record(a, e)
            && Legal(history + [e]) && Alike(When(a.core, e), Live(history + [e]))
            && When(a.core, e).updatedAt == Live(history + [e]).updatedAt
  {
    var e := Emit(a.core, c, eventId, now);
    assert CommandOf(e.body) == Some(c);
    assert e == Emit(Live(history), c, eventId, now);
    LegalSnoc(history, e);
    HandlersIgnoreTimestamps(a.core, Live(history), e);
  }

  /** s agrees with the run t that never left memory. */
  ghost predicate Faithful(s: Session, t: Session) {
    var written := s.stored + s.live.uncommitted;
    && t.stored == [] && written == t.live.uncommitted
    && Legal(written) && t.live.core == Live(written)
    && Alike(s.live.core, t.live.core)
    && (|written| > 1 ==> s.live.core.updatedAt == t.live.core.updatedAt)
    && s.live.version == t.live.version == |s.stored| + |s.live.uncommitted|
  }

  lemma IssueKeepsFaithful(s: Session, t: Session, c: Command, eventId: Id, now: Time)
    requires Faithful(s, t)
    ensures Faithful(Perform(s, Issue(c, eventId, now)), Perform(t, Issue(c, eventId, now)))
    ensures Do(s.live, c, eventId, now).Ok? <==> Do(t.live, c, eventId, now).Ok?
  {
    DoIgnoresTimestamps(s.live, t.live, c, eventId, now);
    if Do(t.live, c, eventId, now).Ok? {
      var e := Emit(t.live.core, c, eventId, now);
      var written := s.stored + s.live.uncommitted;
      DoKeepsLegal(t.live, written, c, eventId, now);
      LegalSnoc(written, e);
      assert s.stored + (s.live.uncommitted + [e]) == written + [e];
    }
  }

  lemma ReloadKeepsFaithful(s: Session, t: Session, at: Time)
    requires Faithful(s, t)
    ensures Faithful(Perform(s, SaveAndReload(at)), t)
  {
    var written := s.stored + s.live.uncommitted;
    RehydrateIsLive(written, at);
    assert written + [] == written;
  }

  /**
    Replay fidelity. Insert saves and reloads anywhere in a sequence of commands: the aggregate in memory, the events
    written and the version are those of the run that never left memory.
   */
  lemma {:induction false} ReplayFidelity(start: Aggregate, ops: seq<Op>)
    requires Legal(start.uncommitted) && start.version == |start.uncommitted|
    requires start.core == Live(start.uncommitted)
    ensures Faithful(Play(Session(start, []), ops), Play(Session(start, []), CommandsOnly(ops)))
  {
    if ops == [] {
      assert [] + start.uncommitted == start.uncommitted;
    } else {
      var init, op := ops[..|ops| - 1], ops[|ops| - 1];
      ReplayFidelity(start, init);
      var s := Play(Session(start, []), init);
      var t := Play(Session(start, []), CommandsOnly(init));
      match op {
        case Issue(c, eventId, now) =>
          PlaySnoc(Session(start, []), CommandsOnly(init), op);
          IssueKeepsFaithful(s, t, c, eventId, now);
        case SaveAndReload(at) =>
          assert CommandsOnly(ops) == CommandsOnly(init);
          ReloadKeepsFaithful(s, t, at);
      }
    }
  }

  // ---------- the language of streams ----------

  function Kinds(events: seq<Event>): (r: seq<PaymentEventType>)
    ensures |r| == |events|
  {
    seq(|events|, i requires 0 <= i < |events| => KindOf(events[i].body))
  }

  /** Created Processed? Failed^failures (Succeeded Refunded?)? */
  function Word(processed: bool, failures: nat, outcome: nat): seq<PaymentEventType>
    requires outcome <= 2
  {
    [PAYMENT_CREATED] + (if processed then [PAYMENT_PROCESSED] else []) + seq(failures, _ => PAYMENT_FAILED)
    + [PAYMENT_SUCCEEDED, PAYMENT_REFUNDED][..outcome]
  }

  ghost predicate InLanguage(w: seq<PaymentEventType>) {
    w == [PAYMENT_CREATED, PAYMENT_CANCELLED] || exists p, n: nat, o: nat | o <= 2 :: w == Word(p, n, o)
  }

  function StatusAfter(processed: bool, failures: nat, outcome: nat): Status {
    if outcome == 2 then REFUNDED
    else if outcome == 1 then SUCCEEDED
    else if failures > 0 then FAILED
    else if processed then PROCESSING
    else PENDING
  }

  ghost predicate Shaped(events: seq<Event>, s: Status) {
    || (Kinds(events) == [PAYMENT_CREATED, PAYMENT_CANCELLED] && s == CANCELLED)
    || exists p, n: nat, o: nat | o <= 2 :: Kinds(events) == Word(p, n, o) && s == StatusAfter(p, n, o)
  }

  lemma KindsSnoc(events: seq<Event>, e: Event)
    ensures Kinds(events + [e]) == Kinds(events) + [KindOf(e.body)]
  {
  }

  lemma WordSnoc(p: bool, n: nat)
    ensures Word(false, 0, 0) == [PAYMENT_CREATED] && Word(true, 0, 0) == [PAYMENT_CREATED, PAYMENT_PROCESSED]
    ensures Word(p, n, 0) + [PAYMENT_FAILED] == Word(p, n + 1, 0)
    ensures Word(p, n, 0) + [PAYMENT_SUCCEEDED] == Word(p, n, 1)
    ensures Word(p, n, 1) + [PAYMENT_REFUNDED] == Word(p, n, 2)
  {
  }

  lemma {:induction false} LegalIsShaped(events: seq<Event>)
    requires Legal(events)
    ensures Shaped(events, Live(events).status)
  {
    if |events| == 1 {
      WordSnoc(false, 0);
      assert Kinds(events) == Word(false, 0, 0);
    } else {
      var init, e := events[..|events| - 1], events[|events| - 1];
      LegalIsShaped(init);
      assert events == init + [e];
      KindsSnoc(init, e);
      if Live(init).status != CANCELLED {
        var p, n: nat, o: nat :| o <= 2 && Kinds(init) == Word(p, n, o) && Live(init).status == StatusAfter(p, n, o);
        ShapeStep(events, p, n, o, e, Live(init).status, Live(events).status);
      }
    }
  }

  lemma ShapeStep(events: seq<Event>, p: bool, n: nat, o: nat, e: Event, before: Status, after: Status)
    requires o <= 2 && Kinds(events) == Word(p, n, o) + [KindOf(e.body)] && before == StatusAfter(p, n, o)
    requires CommandOf(e.body).Some? && Guard(before, CommandOf(e.body).value).None?
    requires after == StatusFor(CommandOf(e.body).value)
    ensures Shaped(events, after)
  {
    WordSnoc(p, n);
    match KindOf(e.body) {
      case PAYMENT_PROCESSED => assert Kinds(events) == Word(true, 0, 0);
      case PAYMENT_SUCCEEDED => assert Kinds(events) == Word(p, n, 1);
      case PAYMENT_FAILED => assert Kinds(events) == Word(p, n + 1, 0);
      case PAYMENT_CANCELLED => assert Kinds(events) == [PAYMENT_CREATED, PAYMENT_CANCELLED];
      case PAYMENT_REFUNDED => assert Kinds(events) == Word(p, n, 2);
    }
  }

  /** Every stream that commands write is in the language. */
  lemma StreamsAreInLanguage(events: seq<Event>)
    requires Legal(events)
    ensures InLanguage(Kinds(events))
  {
    LegalIsShaped(events);
  }

  function KindFor(c: Command): PaymentEventType {
    match c
    case Process => PAYMENT_PROCESSED
    case Succeed => PAYMENT_SUCCEEDED
    case Fail(_) => PAYMENT_FAILED
    case Cancel => PAYMENT_CANCELLED
    case MarkRefunded(_) => PAYMENT_REFUNDED
  }

  function StatusFor(c: Command): Status {
    match c
    case Process => PROCESSING
    case Succeed => SUCCEEDED
    case Fail(_) => FAILED
    case Cancel => CANCELLED
    case MarkRefunded(_) => REFUNDED
  }

  lemma Extend(events: seq<Event>, c: Command, w: seq<PaymentEventType>) returns (longer: seq<Event>)
    requires Legal(events) && Kinds(events) == w && Guard(Live(events).status, c).None?
    ensures Legal(longer) && Kinds(longer) == w + [KindFor(c)]
    ensures longer[0] == events[0] && Live(longer).status == StatusFor(c)
  {
    var e := Emit(Live(events), c, 0, 0);
    assert CommandOf(e.body) == Some(c);
    LegalSnoc(events, e);
    longer := events + [e];
    KindsSnoc(events, e);
  }

  lemma BeginningIsWritten(genesis: Event, p: bool) returns (events: seq<Event>)
    requires Genesis(genesis)
    ensures Legal(events) && events[0] == genesis && Kinds(events) == Word(p, 0, 0)
    ensures Live(events).status == StatusAfter(p, 0, 0)
  {
    WordSnoc(p, 0);
    events := [genesis];
    assert Kinds(events) == Word(false, 0, 0);
    if p {
      events := Extend(events, Process, Word(false, 0, 0));
    }
  }

  lemma {:induction false} FailuresAreWritten(genesis: Event, p: bool, n: nat) returns (events: seq<Event>)
    requires Genesis(genesis)
    ensures Legal(events) && events[0] == genesis && Kinds(events) == Word(p, n, 0)
    ensures Live(events).status == StatusAfter(p, n, 0)
  {
    if n == 0 {
      events := BeginningIsWritten(genesis, p);
    } else {
      var shorter := FailuresAreWritten(genesis, p, n - 1);
      WordSnoc(p, n - 1);
      events := Extend(shorter, Fail(None), Word(p, n - 1, 0));
    }
  }

  lemma {:induction false} WordIsWritten(genesis: Event, p: bool, n: nat, o: nat) returns (events: seq<Event>)
    requires Genesis(genesis) && o <= 2
    ensures Legal(events) && events[0] == genesis && Kinds(events) == Word(p, n, o)
    ensures Live(events).status == StatusAfter(p, n, o)
    decreases o
  {
    if o == 0 {
      events := FailuresAreWritten(genesis, p, n);
    } else {
      var shorter := WordIsWritten(genesis, p, n, o - 1);
      WordSnoc(p, n);
      events := Extend(shorter, if o == 2 then MarkRefunded(0) else Succeed, Word(p, n, o - 1));
    }
  }

  /** Every word of the language is written by successful commands, from any first event. */
  lemma LanguageIsWritten(genesis: Event, w: seq<PaymentEventType>) returns (events: seq<Event>)
    requires Genesis(genesis) && InLanguage(w)
    ensures Legal(events) && events[0] == genesis && Kinds(events) == w
  {
    if w == [PAYMENT_CREATED, PAYMENT_CANCELLED] {
      WordSnoc(false, 0);
      events := WordIsWritten(genesis, false, 0, 0);
      events := Extend(events, Cancel, Word(false, 0, 0));
    } else {
      var p, n: nat, o: nat :| o <= 2 && w == Word(p, n, o);
      events := WordIsWritten(genesis, p, n, o);
    }
  }
}
