/** The payment aggregate: its events, its guarded commands and its event handlers. */
module Payments {
  import opened Basics

  datatype Status = PENDING | PROCESSING | SUCCEEDED | FAILED | CANCELLED | REFUNDED

  datatype PaymentType = DEPOSIT | WITHDRAWAL | PAYMENT | REFUND | ADJUSTMENT

  datatype PaymentMethod = WALLET | CREDIT_CARD | BANK_TRANSFER | PAYPAL | OTHER

  datatype PaymentError =
    | InvalidAmount
    | MethodNotSupported
    | AlreadyProcessed
    | NotProcessable
    | PaymentNotFound
    | UnexpectedFirstEvent
    | UnknownEnumText
    | RefundExceedsOriginal

  // ---------- texts ----------

  function TypeText(t: PaymentType): string {
    match t
    case DEPOSIT => "deposit"
    case WITHDRAWAL => "withdrawal"
    case PAYMENT => "payment"
    case REFUND => "refund"
    case ADJUSTMENT => "adjustment"
  }

  function ParseType(s: string): Option<PaymentType> {
    if s == "deposit" then Some(DEPOSIT)
    else if s == "withdrawal" then Some(WITHDRAWAL)
    else if s == "payment" then Some(PAYMENT)
    else if s == "refund" then Some(REFUND)
    else if s == "adjustment" then Some(ADJUSTMENT)
    else None
  }

  function MethodText(m: PaymentMethod): string {
    match m
    case WALLET => "wallet"
    case CREDIT_CARD => "credit_card"
    case BANK_TRANSFER => "bank_transfer"
    case PAYPAL => "paypal"
    case OTHER => "other"
  }

  function ParseMethod(s: string): Option<PaymentMethod> {
    if s == "wallet" then Some(WALLET)
    else if s == "credit_card" then Some(CREDIT_CARD)
    else if s == "bank_transfer" then Some(BANK_TRANSFER)
    else if s == "paypal" then Some(PAYPAL)
    else if s == "other" then Some(OTHER)
    else None
  }

  lemma TypeTextParses(t: PaymentType)
    ensures ParseType(TypeText(t)) == Some(t)
  {
    assert "deposit"[0] != "payment"[0];
    assert "withdrawal"[0] != "adjustment"[0];
  }

  lemma MethodTextParses(m: PaymentMethod)
    ensures ParseMethod(MethodText(m)) == Some(m)
  {
    assert "wallet"[0] != "paypal"[0];
  }

  function UpperChar(c: char): char {
    if 'a' <= c <= 'z' then c - 'a' + 'A' else c
  }

  function Upper(s: string): (r: string)
    ensures |r| == |s|
    ensures forall i :: 0 <= i < |s| ==> r[i] == UpperChar(s[i])
  {
    seq(|s|, i requires 0 <= i < |s| => UpperChar(s[i]))
  }

  lemma UpperTwice(s: string)
    ensures Upper(Upper(s)) == Upper(s)
  {
  }

  predicate IsSpace(c: char) {
    c == ' ' || '\t' <= c <= '\r' || '\U{001C}' <= c <= '\U{001F}'
  }

  function StripLeft(s: string): string {
    if s != "" && IsSpace(s[0]) then StripLeft(s[1..]) else s
  }

  function StripRight(s: string): string {
    if s != "" && IsSpace(s[|s| - 1]) then StripRight(s[..|s| - 1]) else s
  }

  function Strip(s: string): string {
    StripRight(StripLeft(s))
  }

  function FailureText(description: Option<string>, reason: string): string {
    Strip(TextOr(description, "") + " [FAILED: " + reason + "]")
  }

  // ---------- events ----------

  datatype Body =
    | Created(amount: int, currency: string, ptype: string, payMethod: string,
              reference: Option<Id>, description: Option<string>)
    | Processed
    | Succeeded
    | Failed(reason: Option<string>)
    | Cancelled
    | Refunded(refundedAmount: int, refundedCurrency: string, refundId: Id)

  datatype Event = Event(eventId: Id, occurredAt: Time, schemaVersion: int,
                         paymentId: Id, walletId: Id, userId: Id, body: Body)

  /** PaymentEventType: the type of an event, named as in the source. */
  datatype PaymentEventType =
    | PAYMENT_CREATED | PAYMENT_PROCESSED | PAYMENT_SUCCEEDED | PAYMENT_FAILED | PAYMENT_CANCELLED | PAYMENT_REFUNDED

  function KindOf(body: Body): PaymentEventType {
    match body
    case Created(_, _, _, _, _, _) => PAYMENT_CREATED
    case Processed => PAYMENT_PROCESSED
    case Succeeded => PAYMENT_SUCCEEDED
    case Failed(_) => PAYMENT_FAILED
    case Cancelled => PAYMENT_CANCELLED
    case Refunded(_, _, _) => PAYMENT_REFUNDED
  }

  // ---------- state ----------

  datatype Payment = Payment(
    paymentId: Id, walletId: Id, userId: Id, amount: int, currency: string,
    ptype: PaymentType, payMethod: PaymentMethod,
    status: Status, reference: Option<Id>, description: Option<string>,
    createdAt: Time, updatedAt: Time)

  datatype Aggregate = Aggregate(core: Payment, version: int, uncommitted: seq<Event>)

  /** The event handlers: how an event changes the state. */
  function When(p: Payment, e: Event): Payment {
    var q :=
      match e.body
      case Created(_, _, _, _, _, _) => p.(createdAt := e.occurredAt)
      case Processed => p.(status := PROCESSING)
      case Succeeded => p.(status := SUCCEEDED)
      case Failed(reason) =>
        var f := p.(status := FAILED);
        if reason.Some? && reason.value != ""
        then f.(description := Some(FailureText(p.description, reason.value)))
        else f
      case Cancelled => p.(status := CANCELLED)
      case Refunded(_, _, _) => p.(status := REFUNDED);
    q.(updatedAt := e.occurredAt)
  }

  /** Apply an event and keep it for the next save. */
  function Record(a: Aggregate, e: Event): Aggregate {
    Aggregate(When(a.core, e), a.version + 1, a.uncommitted + [e])
  }

  // ---------- state-transition commands ----------

  datatype Command = Process | Succeed | Fail(reason: Option<string>) | Cancel | MarkRefunded(refundId: Id)

  function EnsurePending(s: Status): Option<PaymentError> {
    if s != PENDING then Some(AlreadyProcessed) else None
  }

  function EnsureProcessable(s: Status): Option<PaymentError> {
    if s == SUCCEEDED || s == REFUNDED then Some(AlreadyProcessed)
    else if s == CANCELLED then Some(NotProcessable)
    else None
  }

  function EnsureSucceeded(s: Status): Option<PaymentError> {
    if s != SUCCEEDED then Some(NotProcessable) else None
  }

  function Guard(s: Status, c: Command): Option<PaymentError> {
    match c
    case Process => EnsurePending(s)
    case Succeed => EnsureProcessable(s)
    case Fail(_) => EnsureProcessable(s)
    case Cancel => EnsurePending(s)
    case MarkRefunded(_) => EnsureSucceeded(s)
  }

  function BodyOf(p: Payment, c: Command): Body {
    match c
    case Process => Processed
    case Succeed => Succeeded
    case Fail(reason) => Failed(reason)
    case Cancel => Cancelled
    case MarkRefunded(refundId) => Refunded(p.amount, p.currency, refundId)
  }

  function Emit(p: Payment, c: Command, eventId: Id, now: Time): Event {
    Event(eventId, now, 1, p.paymentId, p.walletId, p.userId, BodyOf(p, c))
  }

  function Do(a: Aggregate, c: Command, eventId: Id, now: Time): Result<Aggregate, PaymentError> {
    match Guard(a.core.status, c)
    case Some(error) => Err(error)
    case None => Ok(Record(a, Emit(a.core, c, eventId, now)))
  }

  // ---------- creation commands ----------

  datatype Creation =
    | CreateDeposit(walletId: Id, userId: Id, amount: int, currency: string, payMethod: PaymentMethod,
                    reference: Option<Id>, description: Option<string>)
    | CreateWithdrawal(walletId: Id, userId: Id, amount: int, currency: string, payMethod: PaymentMethod,
                       reference: Option<Id>, description: Option<string>)
    | CreateForBooking(walletId: Id, userId: Id, amount: int, currency: string, payMethod: PaymentMethod,
                       bookingId: Id, description: Option<string>)
    | CreateRefund(walletId: Id, userId: Id, amount: int, currency: string,
                   originalId: Id, description: Option<string>)

  function TypeOf(c: Creation): PaymentType {
    match c
    case CreateDeposit(_, _, _, _, _, _, _) => DEPOSIT
    case CreateWithdrawal(_, _, _, _, _, _, _) => WITHDRAWAL
    case CreateForBooking(_, _, _, _, _, _, _) => PAYMENT
    case CreateRefund(_, _, _, _, _, _) => REFUND
  }

  function DefaultText(t: PaymentType): string {
    match t
    case DEPOSIT => "Deposit"
    case WITHDRAWAL => "Withdrawal"
    case PAYMENT => "Booking payment"
    case _ => "Refund"
  }

  /** The state the initialiser builds, before any event: PENDING, upper-case currency. */
  function Initial(c: Creation, paymentId: Id, now: Time): Payment {
    Payment(
      paymentId, c.walletId, c.userId, c.amount, Upper(c.currency), TypeOf(c),
      if c.CreateRefund? then WALLET else c.payMethod,
      PENDING,
      if c.CreateRefund? then Some(c.originalId)
      else if c.CreateForBooking? then Some(c.bookingId)
      else c.reference,
      Some(TextOr(c.description, DefaultText(TypeOf(c)))),
      now, now)
  }

  function CreatedEvent(p: Payment, eventId: Id, now: Time): Event {
    Event(eventId, now, 1, p.paymentId, p.walletId, p.userId,
          Created(p.amount, p.currency, TypeText(p.ptype), MethodText(p.payMethod), p.reference, p.description))
  }

  /** The four factories. */
  function Open(c: Creation, paymentId: Id, eventId: Id, now: Time): Result<Aggregate, PaymentError> {
    if (c.CreateDeposit? || c.CreateWithdrawal?) && c.payMethod == WALLET then Err(MethodNotSupported)
    else if c.amount <= 0 then Err(InvalidAmount)
    else
      var p := Initial(c, paymentId, now);
      Ok(Record(Aggregate(p, 0, []), CreatedEvent(p, eventId, now)))
  }

  // ---------- the aggregate object ----------

  class PaymentAggregate {
    const paymentId: Id
    const walletId: Id
    const userId: Id
    const amount: int
    const currency: string
    const ptype: PaymentType
    const payMethod: PaymentMethod
    var status: Status
    var reference: Option<Id>
    var description: Option<string>
    var createdAt: Time
    var updatedAt: Time
    var version: int
    var uncommitted: seq<Event>

    function Core(): Payment
      reads this
    {
      Payment(paymentId, walletId, userId, amount, currency, ptype, payMethod,
              status, reference, description, createdAt, updatedAt)
    }

    function View(): Aggregate
      reads this
    {
      Aggregate(Core(), version, uncommitted)
    }

    /** The generated initialiser, with the currency in capitals; Initialise adds the check that follows it. */
    constructor (paymentId: Id, walletId: Id, userId: Id, amount: int, currency: string,
                 ptype: PaymentType, payMethod: PaymentMethod,
                 reference: Option<Id>, description: Option<string>, now: Time)
      ensures View() == Aggregate(
                          Payment(paymentId, walletId, userId, amount, Upper(currency), ptype, payMethod,
                                  PENDING, reference, description, now, now), 0, [])
    {
      this.paymentId, this.walletId, this.userId := paymentId, walletId, userId;
      this.amount, this.currency := amount, Upper(currency);
      this.ptype, this.payMethod := ptype, payMethod;
      status, this.reference, this.description := PENDING, reference, description;
      createdAt, updatedAt, version, uncommitted := now, now, 0, [];
    }

    /** Construction as callers see it: __post_init__ raises for an amount that is not positive. */
    static method Initialise(paymentId: Id, walletId: Id, userId: Id, amount: int, currency: string,
                             ptype: PaymentType, payMethod: PaymentMethod,
                             reference: Option<Id>, description: Option<string>, now: Time)
      returns (r: Result<PaymentAggregate, PaymentError>)
      ensures r.Err? <==> amount <= 0
      ensures r.Err? ==> r.error == InvalidAmount
      ensures r.Ok? ==> fresh(r.value)
                        && r.value.View() == Aggregate(
                             Payment(paymentId, walletId, userId, amount, Upper(currency), ptype, payMethod,
                                     PENDING, reference, description, now, now), 0, [])
    {
      if amount <= 0 {
        return Err(InvalidAmount);
      }
      var agg := new PaymentAggregate(
        paymentId, walletId, userId, amount, currency, ptype, payMethod, reference, description, now);
      r := Ok(agg);
    }

    /** when(): dispatch to the handler of the event's class, then take its timestamp. */
    method Handle(e: Event)
      modifies this
      ensures Core() == When(old(Core()), e)
      ensures version == old(version) && uncommitted == old(uncommitted)
    {
      match e.body {
        case Created(_, _, _, _, _, _) => createdAt := e.occurredAt;
        case Processed => status := PROCESSING;
        case Succeeded => status := SUCCEEDED;
        case Failed(reason) =>
          status := FAILED;
          if reason.Some? && reason.value != "" {
            description := Some(FailureText(description, reason.value));
          }
        case Cancelled => status := CANCELLED;
        case Refunded(_, _, _) => status := REFUNDED;
      }
      updatedAt := e.occurredAt;
    }

    method Apply(e: Event)
      modifies this
      ensures View() == Record(old(View()), e)
    {
      Handle(e);
      uncommitted := uncommitted + [e];
      version := version + 1;
    }

    /** What a guarded command leaves: the recorded event, or the refusal and nothing changed. */
    static ghost predicate Answers(before: Aggregate, after: Aggregate, c: Command, eventId: Id, now: Time,
                                   refusal: Option<PaymentError>)
    {
      match Do(before, c, eventId, now)
      case Ok(a) => refusal.None? && after == a
      case Err(error) => refusal == Some(error) && after == before
    }

    method Process(eventId: Id, now: Time) returns (refusal: Option<PaymentError>)
      modifies this
      ensures Answers(old(View()), View(), Command.Process, eventId, now, refusal)
    {
      refusal := EnsurePending(status);
      if refusal.None? {
        Apply(Event(eventId, now, 1, paymentId, walletId, userId, Processed));
      }
    }

    method Succeed(eventId: Id, now: Time) returns (refusal: Option<PaymentError>)
      modifies this
      ensures Answers(old(View()), View(), Command.Succeed, eventId, now, refusal)
    {
      refusal := EnsureProcessable(status);
      if refusal.None? {
        Apply(Event(eventId, now, 1, paymentId, walletId, userId, Succeeded));
      }
    }

    method Fail(reason: Option<string>, eventId: Id, now: Time) returns (refusal: Option<PaymentError>)
      modifies this
      ensures Answers(old(View()), View(), Command.Fail(reason), eventId, now, refusal)
    {
      refusal := EnsureProcessable(status);
      if refusal.None? {
        Apply(Event(eventId, now, 1, paymentId, walletId, userId, Failed(reason)));
      }
    }

    method Cancel(eventId: Id, now: Time) returns (refusal: Option<PaymentError>)
      modifies this
      ensures Answers(old(View()), View(), Command.Cancel, eventId, now, refusal)
    {
      refusal := EnsurePending(status);
      if refusal.None? {
        Apply(Event(eventId, now, 1, paymentId, walletId, userId, Cancelled));
      }
    }

    method MarkAsRefunded(refundId: Id, eventId: Id, now: Time) returns (refusal: Option<PaymentError>)
      modifies this
      ensures Answers(old(View()), View(), Command.MarkRefunded(refundId), eventId, now, refusal)
    {
      refusal := EnsureSucceeded(status);
      if refusal.None? {
        Apply(Event(eventId, now, 1, paymentId, walletId, userId, Refunded(amount, currency, refundId)));
      }
    }

    method PopEvents() returns (events: seq<Event>)
      modifies this`uncommitted
      ensures events == old(uncommitted) && uncommitted == []
    {
      events := uncommitted;
      uncommitted := [];
    }

    /** The four factories behind one dispatch on the kind of creation. */
    static method Create(c: Creation, paymentId: Id, eventId: Id, now: Time)
      returns (r: Result<PaymentAggregate, PaymentError>)
      ensures match Open(c, paymentId, eventId, now)
              case Ok(a) => r.Ok? && fresh(r.value) && r.value.View() == a
              case Err(error) => r == Err(error)
    {
      var means := if c.CreateRefund? then WALLET else c.payMethod;
      if (c.CreateDeposit? || c.CreateWithdrawal?) && means == WALLET {
        return Err(MethodNotSupported);
      }
      var reference, fallback;
      match c {
        case CreateDeposit(_, _, _, _, _, ref, _) => reference, fallback := ref, "Deposit";
        case CreateWithdrawal(_, _, _, _, _, ref, _) => reference, fallback := ref, "Withdrawal";
        case CreateForBooking(_, _, _, _, _, booking, _) => reference, fallback := Some(booking), "Booking payment";
        case CreateRefund(_, _, _, _, original, _) => reference, fallback := Some(original), "Refund";
      }
      var made := Initialise(paymentId, c.walletId, c.userId, c.amount, Upper(c.currency), TypeOf(c),
                             means, reference, Some(TextOr(c.description, fallback)), now);
      if made.Err? {
        return Err(made.error);
      }
      var agg := made.value;
      UpperTwice(c.currency);
      agg.Apply(Event(eventId, now, 1, agg.paymentId, agg.walletId, agg.userId,
                      Created(agg.amount, agg.currency, TypeText(agg.ptype), MethodText(agg.payMethod),
                              agg.reference, agg.description)));
      r := Ok(agg);
    }
  }
}
