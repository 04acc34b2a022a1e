/** Events as dictionaries: writing, making JSON-safe, and reading back. */
module Codec {
  import opened Basics
  import opened Payments
  import opened EventTypes

  /** A Python value: what JSON can hold, and the two kinds it cannot. */
  datatype Value =
    | Null
    | Bool(b: bool)
    | Num(n: int)
    | Text(s: string)
    | List(items: seq<Value>)
    | Dict(entries: map<string, Value>)
    | Moment(at: Time)
    | Uuid(id: Id)

  /** The text forms of the library types, printing and parsing. */
  datatype Texts = Texts(
    ofId: Id -> string, toId: string -> Option<Id>,
    ofTime: Time -> string, toTime: string -> Option<Time>,
    ofAmount: int -> string, toAmount: string -> Option<int>)

  /** Parsing undoes printing, no identifier prints as the empty text, and "0" reads as zero. */
  ghost predicate Faithful(texts: Texts) {
    && (forall id: Id :: texts.toId(texts.ofId(id)) == Some(id) && texts.ofId(id) != "")
    && (forall at: Time :: texts.toTime(texts.ofTime(at)) == Some(at))
    && (forall n: int :: texts.toAmount(texts.ofAmount(n)) == Some(n))
    && texts.toAmount("0") == Some(0)
  }

  // ---------- _safe_json ----------

  function SafeJson(texts: Texts, x: Value): Value
    decreases x
  {
    match x
    case Moment(at) => Text(texts.ofTime(at))
    case Uuid(id) => Text(texts.ofId(id))
    case Dict(entries) => Dict(map k | k in entries :: SafeJson(texts, entries[k]))
    case List(items) => List(seq(|items|, i requires 0 <= i < |items| => SafeJson(texts, items[i])))
    case _ => x
  }

  /** At no depth does x hold a datetime or a UUID. */
  ghost predicate IsJson(x: Value)
    decreases x
  {
    match x
    case Moment(_) => false
    case Uuid(_) => false
    case Dict(entries) => forall k :: k in entries ==> IsJson(entries[k])
    case List(items) => forall i :: 0 <= i < |items| ==> IsJson(items[i])
    case _ => true
  }

  /** The result is JSON at every depth. */
  lemma {:induction false} SafeJsonIsJson(texts: Texts, x: Value)
    ensures IsJson(SafeJson(texts, x))
    decreases x
  {
    match x
    case Dict(entries) =>
      forall k | k in entries ensures IsJson(SafeJson(texts, entries[k])) {
        SafeJsonIsJson(texts, entries[k]);
      }
    case List(items) =>
      forall i | 0 <= i < |items| ensures IsJson(SafeJson(texts, items[i])) {
        SafeJsonIsJson(texts, items[i]);
      }
    case _ =>
  }

  /** Values that are JSON already, and only those, are left as they are. */
  lemma {:induction false} SafeJsonFixesJson(texts: Texts, x: Value)
    ensures SafeJson(texts, x) == x <==> IsJson(x)
    decreases x
  {
    match x
    case Dict(entries) =>
      forall k | k in entries ensures SafeJson(texts, entries[k]) == entries[k] <==> IsJson(entries[k]) {
        SafeJsonFixesJson(texts, entries[k]);
      }
      var safe := SafeJson(texts, x).entries;
      if IsJson(x) {
        assert safe == entries;
      }
      if safe == entries {
        forall k | k in entries ensures IsJson(entries[k]) {
          assert safe[k] == SafeJson(texts, entries[k]);
        }
      }
    case List(items) =>
      forall i | 0 <= i < |items| ensures SafeJson(texts, items[i]) == items[i] <==> IsJson(items[i]) {
        SafeJsonFixesJson(texts, items[i]);
      }
      var safe := SafeJson(texts, x).items;
      if IsJson(x) {
        assert safe == items;
      }
      if safe == items {
        forall i | 0 <= i < |items| ensures IsJson(items[i]) {
          assert safe[i] == SafeJson(texts, items[i]);
        }
      }
    case _ =>
  }

  /** Making a value JSON-safe twice is making it safe once, at any depth of nesting. */
  lemma SafeJsonIsIdempotent(texts: Texts, x: Value)
    ensures SafeJson(texts, SafeJson(texts, x)) == SafeJson(texts, x)
  {
    SafeJsonIsJson(texts, x);
    SafeJsonFixesJson(texts, SafeJson(texts, x));
  }

  /** y is x, with a text that reads back in the place of every datetime and every UUID. */
  ghost predicate ReadsAs(texts: Texts, y: Value, x: Value)
    decreases x
  {
    match x
    case Moment(at) => y.Text? && texts.toTime(y.s) == Some(at)
    case Uuid(id) => y.Text? && texts.toId(y.s) == Some(id)
    case Dict(entries) =>
      && y.Dict? && y.entries.Keys == entries.Keys
      && forall k :: k in entries ==> ReadsAs(texts, y.entries[k], entries[k])
    case List(items) =>
      y.List? && |y.items| == |items| && forall i :: 0 <= i < |items| ==> ReadsAs(texts, y.items[i], items[i])
    case _ => y == x
  }

  /** Nothing is lost: at every depth the printed values can be read back, and all others are kept. */
  lemma {:induction false} SafeJsonReadsBack(texts: Texts, x: Value)
    requires Faithful(texts)
    ensures ReadsAs(texts, SafeJson(texts, x), x)
    decreases x
  {
    match x
    case Dict(entries) =>
      forall k | k in entries ensures ReadsAs(texts, SafeJson(texts, entries[k]), entries[k]) {
        SafeJsonReadsBack(texts, entries[k]);
      }
    case List(items) =>
      forall i | 0 <= i < |items| ensures ReadsAs(texts, SafeJson(texts, items[i]), items[i]) {
        SafeJsonReadsBack(texts, items[i]);
      }
    case _ =>
  }

  // ---------- to_dict ----------

  function MaybeText(s: Option<string>): Value {
    if s.Some? then Text(s.value) else Null
  }

  function Payload(texts: Texts, body: Body): Value {
    match body
    case Created(amount, currency, ptype, payMethod, reference, description) =>
      Dict(map["amount" := Text(texts.ofAmount(amount)), "currency" := Text(currency), "payment_type" := Text(ptype),
               "payment_method" := Text(payMethod),
               "reference_id" := if reference.Some? then Text(texts.ofId(reference.value)) else Null,
               "description" := MaybeText(description)])
    case Failed(reason) => Dict(map["failure_reason" := MaybeText(reason)])
    case Refunded(amount, currency, refundId) =>
      Dict(map["refunded_amount" := Text(texts.ofAmount(amount)), "currency" := Text(currency),
               "refund_id" := Text(texts.ofId(refundId))])
    case _ => Dict(map[])
  }

  function ToDict(texts: Texts, e: Event): Value {
    Dict(map["event_id" := Text(texts.ofId(e.eventId)), "event_type" := Text(TypeName(KindOf(e.body))),
             "schema_version" := Num(e.schemaVersion), "occurred_at" := Text(texts.ofTime(e.occurredAt)),
             "payload" := Payload(texts, e.body), "payment_id" := Text(texts.ofId(e.paymentId)),
             "wallet_id" := Text(texts.ofId(e.walletId)), "user_id" := Text(texts.ofId(e.userId))])
  }

  // ---------- from_dict ----------

  datatype CodecError = UnknownType | MissingKey(key: string) | Malformed(key: string)

  /** Units of 1/10000 in one. */
  const UNITS := 10_000

  predicate Falsy(x: Value) {
    match x
    case Null => true
    case Bool(b) => !b
    case Num(n) => n == 0
    case Text(s) => s == ""
    case List(items) => items == []
    case Dict(entries) => entries == map[]
    case _ => false
  }

  function ParseId(texts: Texts, x: Value, key: string): Result<Id, CodecError> {
    if x.Text? && texts.toId(x.s).Some? then Ok(texts.toId(x.s).value) else Err(Malformed(key))
  }

  function ReadId(texts: Texts, data: map<string, Value>, key: string): Result<Id, CodecError> {
    if key in data then ParseId(texts, data[key], key) else Err(MissingKey(key))
  }

  function ReadIdOr(texts: Texts, data: map<string, Value>, key: string, fallback: Id): Result<Id, CodecError> {
    if key in data then ParseId(texts, data[key], key) else Ok(fallback)
  }

  function ReadReference(texts: Texts, data: map<string, Value>, key: string): Result<Option<Id>, CodecError> {
    if key !in data || Falsy(data[key]) then Ok(None)
    else
      var id :- ParseId(texts, data[key], key);
      Ok(Some(id))
  }

  function ReadTimeOr(texts: Texts, data: map<string, Value>, key: string, fallback: Time): Result<Time, CodecError> {
    if key !in data then Ok(fallback)
    else if data[key].Text? && texts.toTime(data[key].s).Some? then Ok(texts.toTime(data[key].s).value)
    else Err(Malformed(key))
  }

  function ReadAmount(texts: Texts, data: map<string, Value>, key: string): Result<int, CodecError> {
    var x := if key in data then data[key] else Text("0");
    if x.Num? then Ok(x.n * UNITS)
    else if x.Text? && texts.toAmount(x.s).Some? then Ok(texts.toAmount(x.s).value)
    else Err(Malformed(key))
  }

  function ReadNumOr(data: map<string, Value>, key: string, fallback: int): Result<int, CodecError> {
    if key !in data then Ok(fallback) else if data[key].Num? then Ok(data[key].n) else Err(Malformed(key))
  }

  function ReadTextOr(data: map<string, Value>, key: string, fallback: string): Result<string, CodecError> {
    if key !in data then Ok(fallback) else if data[key].Text? then Ok(data[key].s) else Err(Malformed(key))
  }

  function ReadMaybeText(data: map<string, Value>, key: string): Result<Option<string>, CodecError> {
    if key !in data || data[key].Null? then Ok(None)
    else if data[key].Text? then Ok(Some(data[key].s))
    else Err(Malformed(key))
  }

  function CreatedFrom(texts: Texts, payload: map<string, Value>): Result<Body, CodecError> {
    var amount :- ReadAmount(texts, payload, "amount");
    var currency :- ReadTextOr(payload, "currency", "USD");
    var ptype :- ReadTextOr(payload, "payment_type", "payment");
    var payMethod :- ReadTextOr(payload, "payment_method", "other");
    var reference :- ReadReference(texts, payload, "reference_id");
    var description :- ReadMaybeText(payload, "description");
    Ok(Created(amount, currency, ptype, payMethod, reference, description))
  }

  function RefundedFrom(texts: Texts, payload: map<string, Value>): Result<Body, CodecError> {
    var amount :- ReadAmount(texts, payload, "refunded_amount");
    var currency :- ReadTextOr(payload, "currency", "USD");
    var refundId :- ReadId(texts, payload, "refund_id");
    Ok(Refunded(amount, currency, refundId))
  }

  function PayloadOf(data: map<string, Value>): Result<map<string, Value>, CodecError> {
    if "payload" !in data then Ok(map[])
    else if data["payload"].Dict? then Ok(data["payload"].entries)
    else Err(Malformed("payload"))
  }

  function BodyFrom(texts: Texts, k: PaymentEventType, data: map<string, Value>): Result<Body, CodecError> {
    match k
    case PAYMENT_CREATED => var payload :- PayloadOf(data); CreatedFrom(texts, payload)
    case PAYMENT_PROCESSED => Ok(Processed)
    case PAYMENT_SUCCEEDED => Ok(Succeeded)
    case PAYMENT_FAILED =>
      var payload :- PayloadOf(data);
      var reason :- ReadMaybeText(payload, "failure_reason");
      Ok(Failed(reason))
    case PAYMENT_CANCELLED => Ok(Cancelled)
    case PAYMENT_REFUNDED => var payload :- PayloadOf(data); RefundedFrom(texts, payload)
  }

  /** What base_from_dict takes from outside when the dictionary lacks it: a fresh event id and the clock. */
  datatype Defaults = Defaults(eventId: Id, now: Time)

  function FromDict(texts: Texts, k: PaymentEventType, data: map<string, Value>, d: Defaults): Result<Event, CodecError> {
    var occurredAt :- ReadTimeOr(texts, data, "occurred_at", d.now);
    var eventId :- ReadIdOr(texts, data, "event_id", d.eventId);
    var schemaVersion :- ReadNumOr(data, "schema_version", 1);
    var paymentId :- ReadId(texts, data, "payment_id");
    var walletId :- ReadId(texts, data, "wallet_id");
    var userId :- ReadId(texts, data, "user_id");
    var body :- BodyFrom(texts, k, data);
    Ok(Event(eventId, occurredAt, schemaVersion, paymentId, walletId, userId, body))
  }

  function EventFromDict(texts: Texts, eventType: string, data: map<string, Value>, d: Defaults)
    : Result<Event, CodecError>
  {
    var name := Normalize(eventType);
    if name.None? || Registered(name.value).None? then Err(UnknownType)
    else FromDict(texts, Registered(name.value).value, data, d)
  }

  // ---------- the round trip ----------

  lemma ToDictIsJson(texts: Texts, e: Event)
    ensures IsJson(ToDict(texts, e))
  {
    var payload := Payload(texts, e.body);
    assert IsJson(payload) by {
      forall k | k in payload.entries ensures IsJson(payload.entries[k]) {
        assert payload.entries[k].Text? || payload.entries[k].Null?;
      }
    }
    var d := ToDict(texts, e).entries;
    forall k | k in d ensures IsJson(d[k]) {
      assert d[k].Text? || d[k].Num? || d[k] == payload;
    }
  }

  lemma CreatedReadsBack(texts: Texts, body: Body)
    requires Faithful(texts) && body.Created?
    ensures CreatedFrom(texts, Payload(texts, body).entries) == Ok(body)
  {
  }

  lemma RefundedReadsBack(texts: Texts, body: Body)
    requires Faithful(texts) && body.Refunded?
    ensures RefundedFrom(texts, Payload(texts, body).entries) == Ok(body)
  {
  }

  lemma BodyReadsBack(texts: Texts, e: Event)
    requires Faithful(texts)
    ensures BodyFrom(texts, KindOf(e.body), ToDict(texts, e).entries) == Ok(e.body)
  {
    var d := ToDict(texts, e).entries;
    assert d["payload"] == Payload(texts, e.body);
    match e.body
    case Created(_, _, _, _, _, _) => CreatedReadsBack(texts, e.body);
    case Refunded(_, _, _) => RefundedReadsBack(texts, e.body);
    case _ =>
  }

  lemma DictReadsBack(texts: Texts, e: Event, d: Defaults)
    requires Faithful(texts)
    ensures FromDict(texts, KindOf(e.body), ToDict(texts, e).entries, d) == Ok(e)
  {
    BodyReadsBack(texts, e);
    var data := ToDict(texts, e).entries;
    assert data["occurred_at"] == Text(texts.ofTime(e.occurredAt));
    assert data["event_id"] == Text(texts.ofId(e.eventId));
    assert data["payment_id"] == Text(texts.ofId(e.paymentId));
    assert data["wallet_id"] == Text(texts.ofId(e.walletId));
    assert data["user_id"] == Text(texts.ofId(e.userId));
    assert data["schema_version"] == Num(e.schemaVersion);
  }

  /** The spellings of an event's type that its reader accepts. */
  predicate Spells(eventType: string, k: PaymentEventType) {
    Normalize(eventType) == Some(TypeName(k))
  }

  /**
    Written to a dictionary, made JSON-safe as often as the outbox likes, and read back under any accepted spelling of
    its type, every event is the event it was.
   */
  lemma EventRoundTrip(texts: Texts, e: Event, eventType: string, d: Defaults)
    requires Faithful(texts) && Spells(eventType, KindOf(e.body))
    ensures var safe := SafeJson(texts, ToDict(texts, e));
            && safe.Dict? && EventFromDict(texts, eventType, safe.entries, d) == Ok(e)
            && SafeJson(texts, safe) == safe
  {
    ToDictIsJson(texts, e);
    SafeJsonFixesJson(texts, ToDict(texts, e));
    TypeNameIsRegistered(KindOf(e.body));
    DictReadsBack(texts, e, d);
  }

  /** The store writes an event's type beside its dictionary; that pair, in any documented spelling, reads back. */
  lemma StoredEventReadsBack(texts: Texts, e: Event, d: Defaults)
    requires Faithful(texts)
    ensures var data := SafeJson(texts, ToDict(texts, e)).entries;
            && EventFromDict(texts, TypeName(KindOf(e.body)), data, d) == Ok(e)
            && EventFromDict(texts, EnumName(KindOf(e.body)), data, d) == Ok(e)
            && EventFromDict(texts, ClassName(KindOf(e.body)), data, d) == Ok(e)
  {
    EverySpellingIsAccepted(KindOf(e.body));
    EventRoundTrip(texts, e, TypeName(KindOf(e.body)), d);
    EventRoundTrip(texts, e, EnumName(KindOf(e.body)), d);
    EventRoundTrip(texts, e, ClassName(KindOf(e.body)), d);
  }

  /** The type an event's dictionary names, in the words other services read. */
  function PublicType(body: Body): string {
    match body
    case Created(_, _, _, _, _, _) => "payment.created"
    case Processed => "payment.processed"
    case Succeeded => "payment.succeeded"
    case Failed(_) => "payment.failed"
    case Cancelled => "payment.cancelled"
    case Refunded(_, _, _) => "payment.refunded"
  }

  function PublicPayloadKeys(body: Body): set<string> {
    match body
    case Created(_, _, _, _, _, _) =>
      {"amount", "currency", "payment_type", "payment_method", "reference_id", "description"}
    case Failed(_) => {"failure_reason"}
    case Refunded(_, _, _) => {"refunded_amount", "currency", "refund_id"}
    case _ => {}
  }

  lemma PublicTypeIs(body: Body)
    ensures PublicType(body) == TypeName(KindOf(body))
  {
  }

  lemma PayloadKeysAre(texts: Texts, body: Body)
    ensures Payload(texts, body).Dict? && Payload(texts, body).entries.Keys == PublicPayloadKeys(body)
  {
    var keys := Payload(texts, body).entries.Keys;
    match body
    case Created(_, _, _, _, _, _) =>
      assert keys == {"amount", "currency", "payment_type", "payment_method", "reference_id", "description"};
    case Failed(_) => assert keys == {"failure_reason"};
    case Refunded(_, _, _) => assert keys == {"refunded_amount", "currency", "refund_id"};
    case _ => assert keys == {};
  }

  /** Each payload entry under its own name. */
  predicate PublicPayload(texts: Texts, body: Body, entries: map<string, Value>)
    requires entries.Keys == PublicPayloadKeys(body)
  {
    match body
    case Created(amount, currency, ptype, payMethod, reference, description) =>
      && entries["amount"] == Text(texts.ofAmount(amount)) && entries["currency"] == Text(currency)
      && entries["payment_type"] == Text(ptype) && entries["payment_method"] == Text(payMethod)
      && entries["reference_id"] == (if reference.Some? then Text(texts.ofId(reference.value)) else Null)
      && entries["description"] == (if description.Some? then Text(description.value) else Null)
    case Failed(reason) => entries["failure_reason"] == if reason.Some? then Text(reason.value) else Null
    case Refunded(amount, currency, refundId) =>
      && entries["refunded_amount"] == Text(texts.ofAmount(amount)) && entries["currency"] == Text(currency)
      && entries["refund_id"] == Text(texts.ofId(refundId))
    case _ => true
  }

  lemma PayloadIsPublic(texts: Texts, body: Body)
    ensures Payload(texts, body).Dict? && Payload(texts, body).entries.Keys == PublicPayloadKeys(body)
    ensures PublicPayload(texts, body, Payload(texts, body).entries)
  {
    PayloadKeysAre(texts, body);
  }

  ghost predicate PublicDict(texts: Texts, e: Event, data: map<string, Value>) {
    && data.Keys == {"event_id", "event_type", "schema_version", "occurred_at", "payload",
                     "payment_id", "wallet_id", "user_id"}
    && data["event_type"] == Text(PublicType(e.body))
    && data["payment_id"] == Text(texts.ofId(e.paymentId)) && data["wallet_id"] == Text(texts.ofId(e.walletId))
    && data["user_id"] == Text(texts.ofId(e.userId)) && data["event_id"] == Text(texts.ofId(e.eventId))
    && data["payload"].Dict? && data["payload"].entries.Keys == PublicPayloadKeys(e.body)
    && PublicPayload(texts, e.body, data["payload"].entries)
  }

  lemma DictIsPublic(texts: Texts, e: Event)
    ensures PublicDict(texts, e, ToDict(texts, e).entries)
  {
    var data, payload := ToDict(texts, e).entries, Payload(texts, e.body);
    assert data["event_type"] == Text(TypeName(KindOf(e.body))) && data["payload"] == payload;
    PublicTypeIs(e.body);
    assert data["payment_id"] == Text(texts.ofId(e.paymentId)) && data["wallet_id"] == Text(texts.ofId(e.walletId));
    assert data["user_id"] == Text(texts.ofId(e.userId)) && data["event_id"] == Text(texts.ofId(e.eventId));
    PayloadIsPublic(texts, e.body);
  }

  /** A dictionary describes itself: read by the type it names, it is its event. Its keys are the public ones. */
  lemma DictDescribesItself(texts: Texts, e: Event, d: Defaults)
    requires Faithful(texts)
    ensures var data := SafeJson(texts, ToDict(texts, e)).entries;
            PublicDict(texts, e, data) && EventFromDict(texts, PublicType(e.body), data, d) == Ok(e)
  {
    ToDictIsJson(texts, e);
    SafeJsonFixesJson(texts, ToDict(texts, e));
    StoredEventReadsBack(texts, e, d);
    DictIsPublic(texts, e);
    PublicTypeIs(e.body);
  }

  /** A dictionary with the three identifiers and nothing else. */
  function Bare(texts: Texts, p: Id, w: Id, u: Id): map<string, Value> {
    map["payment_id" := Text(texts.ofId(p)), "wallet_id" := Text(texts.ofId(w)), "user_id" := Text(texts.ofId(u))]
  }

  lemma BareReads(texts: Texts, k: PaymentEventType, d: Defaults, p: Id, w: Id, u: Id)
    requires Faithful(texts)
    ensures FromDict(texts, k, Bare(texts, p, w, u), d) ==
            match BodyFrom(texts, k, Bare(texts, p, w, u))
            case Ok(body) => Ok(Event(d.eventId, d.now, 1, p, w, u, body))
            case Err(error) => Err(error)
  {
    var data := Bare(texts, p, w, u);
    assert data["payment_id"] == Text(texts.ofId(p)) && data["wallet_id"] == Text(texts.ofId(w));
    assert data["user_id"] == Text(texts.ofId(u));
  }

  lemma EmptyPayloads(texts: Texts)
    requires Faithful(texts)
    ensures CreatedFrom(texts, map[]) == Ok(Created(0, "USD", "payment", "other", None, None))
    ensures RefundedFrom(texts, map[]) == Err(MissingKey("refund_id"))
  {
  }

  lemma BareBodies(texts: Texts, p: Id, w: Id, u: Id)
    requires Faithful(texts)
    ensures var data := Bare(texts, p, w, u);
            && BodyFrom(texts, PAYMENT_CREATED, data) == Ok(Created(0, "USD", "payment", "other", None, None))
            && BodyFrom(texts, PAYMENT_FAILED, data) == Ok(Failed(None))
            && BodyFrom(texts, PAYMENT_REFUNDED, data) == Err(MissingKey("refund_id"))
  {
    EmptyPayloads(texts);
    assert PayloadOf(Bare(texts, p, w, u)) == Ok(map[]);
  }

  /** What is missing from a dictionary is filled in, except for the three identifiers and a refund's. */
  lemma MissingEntriesAreFilledIn(texts: Texts, d: Defaults, p: Id, w: Id, u: Id)
    requires Faithful(texts)
    ensures var data := Bare(texts, p, w, u);
            && FromDict(texts, PAYMENT_CREATED, data, d)
               == Ok(Event(d.eventId, d.now, 1, p, w, u, Created(0, "USD", "payment", "other", None, None)))
            && FromDict(texts, PAYMENT_FAILED, data, d) == Ok(Event(d.eventId, d.now, 1, p, w, u, Failed(None)))
            && FromDict(texts, PAYMENT_REFUNDED, data, d) == Err(MissingKey("refund_id"))
            && FromDict(texts, PAYMENT_CREATED, map[], d) == Err(MissingKey("payment_id"))
  {
    BareReads(texts, PAYMENT_CREATED, d, p, w, u);
    BareReads(texts, PAYMENT_FAILED, d, p, w, u);
    BareReads(texts, PAYMENT_REFUNDED, d, p, w, u);
    BareBodies(texts, p, w, u);
  }

  /**
    How amounts and references read: a missing amount is zero, a number counts whole units, a text is parsed; a missing or
    empty reference is none; whatever does not parse is reported under its key.
   */
  lemma EntriesRead(texts: Texts, data: map<string, Value>, key: string, n: int, id: Id)
    requires Faithful(texts)
    ensures var amount := ReadAmount(texts, data, key);
            && (key !in data ==> amount == Ok(0))
            && (key in data && data[key] == Num(n) ==> amount == Ok(n * 10_000))
            && (key in data && data[key] == Text(texts.ofAmount(n)) ==> amount == Ok(n))
            && (key in data && !data[key].Num? && !data[key].Text? ==> amount == Err(Malformed(key)))
            && (amount.Err? ==> amount == Err(Malformed(key)))
    ensures var reference := ReadReference(texts, data, key);
            && (key !in data || data[key] == Null || data[key] == Text("") ==> reference == Ok(None))
            && (key in data && data[key] == Text(texts.ofId(id)) ==> reference == Ok(Some(id)))
            && (key in data && data[key].Text? && data[key].s != "" && texts.toId(data[key].s).None? ==>
                  reference == Err(Malformed(key)))
    ensures var needed := ReadId(texts, data, key);
            && (key !in data <==> needed == Err(MissingKey(key)))
            && (key in data && data[key] == Text(texts.ofId(id)) ==> needed == Ok(id))
  {
  }

  /** Different events have different dictionaries. */
  lemma ToDictIsInjective(texts: Texts, e: Event, f: Event)
    requires Faithful(texts) && ToDict(texts, e) == ToDict(texts, f)
    ensures e == f
  {
    var d := Defaults(0, 0);
    DictReadsBack(texts, e, d);
    DictReadsBack(texts, f, d);
    TypeNameIsRegistered(KindOf(e.body));
    TypeNameIsRegistered(KindOf(f.body));
    var data := ToDict(texts, e).entries;
    assert data["event_type"] == Text(TypeName(KindOf(e.body)));
    assert ToDict(texts, f).entries["event_type"] == Text(TypeName(KindOf(f.body)));
  }
}
