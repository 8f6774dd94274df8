/** The wire schema of the Kraken v2 level-3 feed and of the token exchange:
    the records of src/kraken/messages.rs, the decoding rules their derived
    serde deserializers follow, and the serialization of the subscribe request.

    Decoders work on the `Json` value of a frame. For a record written as a
    JSON object and an enum written as its string tag, each one succeeds
    exactly when the derived deserializer would. When several fields are
    wrong, the error reported is the first in declaration order, which need
    not be the error serde reports. */
module Messages {
  import opened Wrappers
  import opened Json

  // ---------------------------------------------------------------------
  // Records
  // ---------------------------------------------------------------------

  datatype EventType = Add | Modify | Delete

  /** An event in a bid or ask list; its side is the list it appears in. */
  datatype OrderEvent = OrderEvent(
    event: EventType,
    orderId: string,
    limitPrice: real,
    orderQty: real,
    timestamp: string)

  /** One item of an envelope's `data` list. */
  datatype Data = Data(
    checksum: Option<U32>,
    symbol: Option<string>,
    timestamp: Option<string>,
    bids: seq<OrderEvent>,
    asks: seq<OrderEvent>)

  /** The envelope of a streamed frame; `messageType` is the JSON key "type". */
  datatype Response = Response(channel: string, messageType: string, data: seq<Data>)

  datatype TokenResponseResult = TokenResponseResult(token: string, expires: U64)

  datatype TokenResponse = TokenResponse(result: Option<TokenResponseResult>, error: seq<string>)

  datatype SubscribeParams = SubscribeParams(
    channel: string,
    symbol: seq<string>,
    depth: Option<U32>,
    snapshot: Option<bool>,
    token: string,
    reqId: Option<U64>)

  /** `requestMethod` is the JSON key "method". */
  datatype SubscribeRequest = SubscribeRequest(requestMethod: string, params: SubscribeParams)

  /** The value an event takes when its "event" key is absent. */
  function DefaultEvent(): EventType {
    Add
  }

  // ---------------------------------------------------------------------
  // Decoding
  // ---------------------------------------------------------------------

  function EventTag(t: EventType): string {
    match t
    case Add => "add"
    case Modify => "modify"
    case Delete => "delete"
  }

  /** A unit-variant enum is written as its renamed tag. */
  function DecodeEventType(v: Json): (r: Result<EventType, DecodeError>)
    ensures r.Ok? <==> v.JString? && v.s in {"add", "modify", "delete"}
    ensures r.Ok? ==> EventTag(r.value) == v.s
  {
    match v
    case JString(s) =>
      if s == "add" then Ok(Add)
      else if s == "modify" then Ok(Modify)
      else if s == "delete" then Ok(Delete)
      else Err(UnknownVariant(s))
    case _ => Err(InvalidType("a string"))
  }

  /** A field marked `#[serde(default)]` of type `Option<T>`, and serde's
      rule for any `Option<T>` field: absent or null is `None`. */
  function OptionalField<T>(members: seq<(string, Json)>, key: string, decode: Json -> Result<T, DecodeError>)
    : (r: Result<Option<T>, DecodeError>)
    ensures Find(members, key) == Absent ==> r == Ok(None)
    ensures Find(members, key) == Present(JNull) ==> r == Ok(None)
    ensures Find(members, key) == Duplicate ==> r.Err?
    ensures Find(members, key).Present? && Find(members, key).value != JNull ==>
              && (r.Ok? <==> decode(Find(members, key).value).Ok?)
              && (r.Ok? ==> r.value == Some(decode(Find(members, key).value).value))
  {
    match Find(members, key)
    case Absent => Ok(None)
    case Duplicate => Err(DuplicateField(key))
    case Present(JNull) => Ok(None)
    case Present(v) =>
      var x :- decode(v);
      Ok(Some(x))
  }

  /** The "event" key: absent is the default, Add. */
  function EventField(members: seq<(string, Json)>): (r: Result<EventType, DecodeError>)
    ensures Find(members, "event") == Absent ==> r == Ok(Add)
    ensures Find(members, "event").Present? ==> r == DecodeEventType(Find(members, "event").value)
    ensures Find(members, "event") == Duplicate ==> r.Err?
  {
    match Find(members, "event")
    case Absent => Ok(DefaultEvent())
    case Duplicate => Err(DuplicateField("event"))
    case Present(t) => DecodeEventType(t)
  }

  /** An event decodes exactly when the tag is absent or valid, and the four
      other fields occur once each with a value of their type; the event then
      carries those values. */
  function DecodeOrderEvent(v: Json): (r: Result<OrderEvent, DecodeError>)
    ensures r.Ok? ==> v.JObject?
    ensures v.JObject? ==>
      (r.Ok? <==> && EventField(v.members).Ok?
                  && Find(v.members, "order_id").Present? && Find(v.members, "order_id").value.JString?
                  && Find(v.members, "limit_price").Present? && AsF64(Find(v.members, "limit_price").value).Ok?
                  && Find(v.members, "order_qty").Present? && AsF64(Find(v.members, "order_qty").value).Ok?
                  && Find(v.members, "timestamp").Present? && Find(v.members, "timestamp").value.JString?)
    ensures r.Ok? ==>
      && EventField(v.members) == Ok(r.value.event)
      && Find(v.members, "order_id") == Present(JString(r.value.orderId))
      && AsF64(Find(v.members, "limit_price").value) == Ok(r.value.limitPrice)
      && AsF64(Find(v.members, "order_qty").value) == Ok(r.value.orderQty)
      && Find(v.members, "timestamp") == Present(JString(r.value.timestamp))
  {
    match v
    case JObject(ms) =>
      var event :- EventField(ms);
      var id :- Required(ms, "order_id");
      var orderId :- AsString(id);
      var p :- Required(ms, "limit_price");
      var limitPrice :- AsF64(p);
      var q :- Required(ms, "order_qty");
      var orderQty :- AsF64(q);
      var ts :- Required(ms, "timestamp");
      var timestamp :- AsString(ts);
      Ok(OrderEvent(event, orderId, limitPrice, orderQty, timestamp))
    case _ => Err(InvalidType("struct OrderEvent"))
  }

  function DecodeOrderEvents(items: seq<Json>): (r: Result<seq<OrderEvent>, DecodeError>)
    ensures r.Ok? ==> |r.value| == |items|
    ensures r.Ok? ==> forall k :: 0 <= k < |items| ==> DecodeOrderEvent(items[k]) == Ok(r.value[k])
  {
    if items == [] then Ok([])
    else
      var first :- DecodeOrderEvent(items[0]);
      var rest :- DecodeOrderEvents(items[1..]);
      Ok([first] + rest)
  }

  /** A `#[serde(default)]` list of events: absent is empty, null is refused. */
  function EventListField(members: seq<(string, Json)>, key: string): (r: Result<seq<OrderEvent>, DecodeError>)
    ensures Find(members, key) == Absent ==> r == Ok([])
    ensures Find(members, key) == Present(JNull) ==> r.Err?
    ensures Find(members, key).Present? && Find(members, key).value.JArray? ==>
              r == DecodeOrderEvents(Find(members, key).value.items)
    ensures r.Ok? ==> Find(members, key) == Absent || (Find(members, key).Present? && Find(members, key).value.JArray?)
  {
    match Find(members, key)
    case Absent => Ok([])
    case Duplicate => Err(DuplicateField(key))
    case Present(JArray(items)) => DecodeOrderEvents(items)
    case Present(_) => Err(InvalidType("a sequence"))
  }

  function U32Field(key: string): Json -> Result<U32, DecodeError> {
    v => AsU32(v, key)
  }

  function DecodeData(v: Json): (r: Result<Data, DecodeError>)
    ensures r.Ok? ==> v.JObject?
    ensures v.JObject? && r.Ok? ==>
      && (Find(v.members, "checksum") == Absent ==> r.value.checksum == None)
      && (Find(v.members, "symbol") == Absent ==> r.value.symbol == None)
      && (Find(v.members, "timestamp") == Absent ==> r.value.timestamp == None)
      && (Find(v.members, "bids") == Absent ==> r.value.bids == [])
      && (Find(v.members, "asks") == Absent ==> r.value.asks == [])
    ensures v.JObject? ==>
      (r.Ok? <==> && OptionalField(v.members, "checksum", U32Field("checksum")).Ok?
                  && OptionalField(v.members, "symbol", AsString).Ok?
                  && OptionalField(v.members, "timestamp", AsString).Ok?
                  && EventListField(v.members, "bids").Ok?
                  && EventListField(v.members, "asks").Ok?)
    ensures v.JObject? && r.Ok? ==>
      && OptionalField(v.members, "checksum", U32Field("checksum")) == Ok(r.value.checksum)
      && OptionalField(v.members, "symbol", AsString) == Ok(r.value.symbol)
      && OptionalField(v.members, "timestamp", AsString) == Ok(r.value.timestamp)
      && EventListField(v.members, "bids") == Ok(r.value.bids)
      && EventListField(v.members, "asks") == Ok(r.value.asks)
  {
    match v
    case JObject(ms) =>
      var checksum :- OptionalField(ms, "checksum", U32Field("checksum"));
      var symbol :- OptionalField(ms, "symbol", AsString);
      var timestamp :- OptionalField(ms, "timestamp", AsString);
      var bids :- EventListField(ms, "bids");
      var asks :- EventListField(ms, "asks");
      Ok(Data(checksum, symbol, timestamp, bids, asks))
    case _ => Err(InvalidType("struct Data"))
  }

  function DecodeDataItems(items: seq<Json>): (r: Result<seq<Data>, DecodeError>)
    ensures r.Ok? ==> |r.value| == |items|
    ensures r.Ok? ==> forall k :: 0 <= k < |items| ==> DecodeData(items[k]) == Ok(r.value[k])
  {
    if items == [] then Ok([])
    else
      var first :- DecodeData(items[0]);
      var rest :- DecodeDataItems(items[1..]);
      Ok([first] + rest)
  }

  /** `channel`, `type` and `data` are all required. */
  function DecodeResponse(v: Json): (r: Result<Response, DecodeError>)
    ensures r.Ok? ==> v.JObject?
    ensures v.JObject? && (Find(v.members, "channel") == Absent || Find(v.members, "type") == Absent
                           || Find(v.members, "data") == Absent)
            ==> r.Err?
    ensures v.JObject? ==>
      (r.Ok? <==> && Find(v.members, "channel").Present? && Find(v.members, "channel").value.JString?
                  && Find(v.members, "type").Present? && Find(v.members, "type").value.JString?
                  && Find(v.members, "data").Present? && Find(v.members, "data").value.JArray?
                  && DecodeDataItems(Find(v.members, "data").value.items).Ok?)
    ensures r.Ok? ==>
      && Find(v.members, "channel") == Present(JString(r.value.channel))
      && Find(v.members, "type") == Present(JString(r.value.messageType))
      && Find(v.members, "data").Present? && Find(v.members, "data").value.JArray?
      && DecodeDataItems(Find(v.members, "data").value.items) == Ok(r.value.data)
  {
    match v
    case JObject(ms) =>
      var c :- Required(ms, "channel");
      var channel :- AsString(c);
      var t :- Required(ms, "type");
      var messageType :- AsString(t);
      var d :- Required(ms, "data");
      var items :- match d
                   case JArray(items) => Ok(items)
                   case _ => Err(InvalidType("a sequence"));
      var data :- DecodeDataItems(items);
      Ok(Response(channel, messageType, data))
    case _ => Err(InvalidType("struct Response"))
  }

  function DecodeTokenResult(v: Json): (r: Result<TokenResponseResult, DecodeError>)
    ensures r.Ok? ==> v.JObject?
    ensures v.JObject? && (Find(v.members, "token") == Absent || Find(v.members, "expires") == Absent) ==> r.Err?
    ensures v.JObject? ==>
      (r.Ok? <==> && Find(v.members, "token").Present? && Find(v.members, "token").value.JString?
                  && Find(v.members, "expires").Present? && AsU64(Find(v.members, "expires").value, "expires").Ok?)
    ensures r.Ok? ==>
      && Find(v.members, "token") == Present(JString(r.value.token))
      && Find(v.members, "expires") == Present(JInt(r.value.expires as int))
  {
    match v
    case JObject(ms) =>
      var t :- Required(ms, "token");
      var token :- AsString(t);
      var e :- Required(ms, "expires");
      var expires :- AsU64(e, "expires");
      Ok(TokenResponseResult(token, expires))
    case _ => Err(InvalidType("struct TokenResponseResult"))
  }

  /** The `error` list is required; `result` may be absent or null. */
  function DecodeTokenResponse(v: Json): (r: Result<TokenResponse, DecodeError>)
    ensures r.Ok? ==> v.JObject?
    ensures v.JObject? && Find(v.members, "error") == Absent ==> r.Err?
    ensures v.JObject? && r.Ok? && (Find(v.members, "result") == Absent || Find(v.members, "result") == Present(JNull))
            ==> r.value.result == None
    ensures v.JObject? ==>
      (r.Ok? <==> && OptionalField(v.members, "result", DecodeTokenResult).Ok?
                  && Find(v.members, "error").Present? && AsStrings(Find(v.members, "error").value).Ok?)
    ensures r.Ok? ==>
      && OptionalField(v.members, "result", DecodeTokenResult) == Ok(r.value.result)
      && AsStrings(Find(v.members, "error").value) == Ok(r.value.error)
  {
    match v
    case JObject(ms) =>
      var result :- OptionalField(ms, "result", DecodeTokenResult);
      var e :- Required(ms, "error");
      var error :- AsStrings(e);
      Ok(TokenResponse(result, error))
    case _ => Err(InvalidType("struct TokenResponse"))
  }

  // ---------------------------------------------------------------------
  // Serialization of the subscribe request
  // ---------------------------------------------------------------------

  /** The members serde writes for an `Option` field marked
      `skip_serializing_if = "Option::is_none"`. */
  function Skippable<T>(key: string, x: Option<T>, encode: T -> Json): (r: seq<(string, Json)>)
    ensures x.None? ==> r == []
    ensures x.Some? ==> r == [(key, encode(x.value))]
  {
    match x
    case None => []
    case Some(v) => [(key, encode(v))]
  }

  function U32Json(n: U32): Json { JInt(n as int) }

  function U64Json(n: U64): Json { JInt(n as int) }

  function BoolJson(b: bool): Json { JBool(b) }

  /** A `Vec<String>` as serde writes it: the array of the strings. */
  function StringArray(ss: seq<string>): (r: Json)
    ensures AsStrings(r) == Ok(ss)
  {
    var r := JArray(seq(|ss|, k requires 0 <= k < |ss| => JString(ss[k])));
    assert AsStrings(r).value == ss;
    r
  }

  /** Fields are written in declaration order, channel and symbol first;
      the three always-written fields are there whatever is set, and each
      skippable one adds a member only when it is set. */
  function EncodeSubscribeParams(p: SubscribeParams): (r: Json)
    ensures r.JObject?
    ensures |r.members| == 3 + (if p.depth.Some? then 1 else 0) + (if p.snapshot.Some? then 1 else 0)
                             + (if p.reqId.Some? then 1 else 0)
    ensures r.members[0] == ("channel", JString(p.channel)) && r.members[1] == ("symbol", StringArray(p.symbol))
  {
    JObject(
      [("channel", JString(p.channel)),
       ("symbol", StringArray(p.symbol))]
      + Skippable("depth", p.depth, U32Json)
      + Skippable("snapshot", p.snapshot, BoolJson)
      + [("token", JString(p.token))]
      + Skippable("req_id", p.reqId, U64Json))
  }

  /** The request field is written under the key "method". */
  function EncodeSubscribeRequest(req: SubscribeRequest): (r: Json)
    ensures r.JObject?
    ensures Find(r.members, "method") == Present(JString(req.requestMethod))
    ensures Find(r.members, "params") == Present(EncodeSubscribeParams(req.params))
  {
    var ms := [("method", JString(req.requestMethod)), ("params", EncodeSubscribeParams(req.params))];
    FindInDistinct(ms, 0);
    FindInDistinct(ms, 1);
    JObject(ms)
  }

  /** Serializing the parameters writes `channel`, `symbol` and `token`
      always, and `depth`, `snapshot` and `req_id` exactly when they are set. */
  lemma SkippableOccurrences<T>(key: string, x: Option<T>, encode: T -> Json, k: string)
    ensures Occurrences(Skippable(key, x, encode), k) == if key == k && x.Some? then [encode(x.value)] else []
  {
    if x.Some? {
      OccurrencesOfOne(key, encode(x.value), k);
    }
  }

  lemma OccurrencesOfParts(a: seq<(string, Json)>, b: seq<(string, Json)>, c: seq<(string, Json)>,
                           d: seq<(string, Json)>, e: seq<(string, Json)>, f: seq<(string, Json)>, key: string)
    ensures Occurrences(a + b + c + d + e + f, key)
            == Occurrences(a, key) + Occurrences(b, key) + Occurrences(c, key)
               + Occurrences(d, key) + Occurrences(e, key) + Occurrences(f, key)
  {
    OccurrencesAppend(a, b, key);
    OccurrencesAppend(a + b, c, key);
    OccurrencesAppend(a + b + c, d, key);
    OccurrencesAppend(a + b + c + d, e, key);
    OccurrencesAppend(a + b + c + d + e, f, key);
  }

  /** The serialized parameters, member group by member group. */
  lemma SubscribeParamsParts(p: SubscribeParams)
    ensures EncodeSubscribeParams(p).members
            == [("channel", JString(p.channel))] + [("symbol", StringArray(p.symbol))]
               + Skippable("depth", p.depth, U32Json)
               + Skippable("snapshot", p.snapshot, BoolJson)
               + [("token", JString(p.token))]
               + Skippable("req_id", p.reqId, U64Json)
  {
  }

  /** Where the members carrying `key` come from in the serialized parameters. */
  lemma SubscribeParamsOccurrences(p: SubscribeParams, key: string)
    ensures Occurrences(EncodeSubscribeParams(p).members, key)
            == (if key == "channel" then [JString(p.channel)] else [])
               + (if key == "symbol" then [StringArray(p.symbol)] else [])
               + (if key == "depth" && p.depth.Some? then [JInt(p.depth.value as int)] else [])
               + (if key == "snapshot" && p.snapshot.Some? then [JBool(p.snapshot.value)] else [])
               + (if key == "token" then [JString(p.token)] else [])
               + (if key == "req_id" && p.reqId.Some? then [JInt(p.reqId.value as int)] else [])
  {
    var ms := EncodeSubscribeParams(p).members;
    var c: seq<(string, Json)> := [("channel", JString(p.channel))];
    var s: seq<(string, Json)> := [("symbol", StringArray(p.symbol))];
    var t: seq<(string, Json)> := [("token", JString(p.token))];
    assert Occurrences(ms, key)
           == Occurrences(c, key) + Occurrences(s, key)
              + Occurrences(Skippable("depth", p.depth, U32Json), key)
              + Occurrences(Skippable("snapshot", p.snapshot, BoolJson), key)
              + Occurrences(t, key) + Occurrences(Skippable("req_id", p.reqId, U64Json), key) by {
      SubscribeParamsParts(p);
      OccurrencesOfParts(c, s, Skippable("depth", p.depth, U32Json), Skippable("snapshot", p.snapshot, BoolJson),
                         t, Skippable("req_id", p.reqId, U64Json), key);
    }
    assert Occurrences(c, key) == (if key == "channel" then [JString(p.channel)] else []) by {
      OccurrencesOfOne("channel", JString(p.channel), key);
    }
    assert Occurrences(s, key) == (if key == "symbol" then [StringArray(p.symbol)] else []) by {
      OccurrencesOfOne("symbol", StringArray(p.symbol), key);
    }
    assert Occurrences(t, key) == (if key == "token" then [JString(p.token)] else []) by {
      OccurrencesOfOne("token", JString(p.token), key);
    }
    SkippableOccurrences("depth", p.depth, U32Json, key);
    SkippableOccurrences("snapshot", p.snapshot, BoolJson, key);
    SkippableOccurrences("req_id", p.reqId, U64Json, key);
  }

  /** Serializing the parameters always writes `channel`, `symbol` and `token`. */
  lemma SubscribeParamsRequiredFields(p: SubscribeParams)
    ensures var ms := EncodeSubscribeParams(p).members;
      && Find(ms, "channel") == Present(JString(p.channel))
      && Find(ms, "symbol") == Present(StringArray(p.symbol))
      && Find(ms, "token") == Present(JString(p.token))
  {
    SubscribeParamsOccurrences(p, "channel");
    SubscribeParamsOccurrences(p, "symbol");
    SubscribeParamsOccurrences(p, "token");
  }

  /** Serializing the parameters writes `depth`, `snapshot` and `req_id`
      exactly when they are set, with their values. */
  lemma SubscribeParamsSkippedFields(p: SubscribeParams)
    ensures var ms := EncodeSubscribeParams(p).members;
      && Find(ms, "depth") == (if p.depth.Some? then Present(JInt(p.depth.value as int)) else Absent)
      && Find(ms, "snapshot") == (if p.snapshot.Some? then Present(JBool(p.snapshot.value)) else Absent)
      && Find(ms, "req_id") == (if p.reqId.Some? then Present(JInt(p.reqId.value as int)) else Absent)
  {
    SubscribeParamsOccurrences(p, "depth");
    SubscribeParamsOccurrences(p, "snapshot");
    SubscribeParamsOccurrences(p, "req_id");
  }

  // ---------------------------------------------------------------------
  // Canonical JSON of the feed records, as the exchange writes them
  // ---------------------------------------------------------------------

  function EncodeOrderEvent(e: OrderEvent): Json {
    JObject([("event", JString(EventTag(e.event))),
             ("order_id", JString(e.orderId)),
             ("limit_price", JFloat(e.limitPrice)),
             ("order_qty", JFloat(e.orderQty)),
             ("timestamp", JString(e.timestamp))])
  }

  function EncodeOrderEvents(es: seq<OrderEvent>): seq<Json> {
    seq(|es|, k requires 0 <= k < |es| => EncodeOrderEvent(es[k]))
  }

  function EncodeOptional<T>(x: Option<T>, encode: T -> Json): Json {
    match x
    case None => JNull
    case Some(v) => encode(v)
  }

  function EncodeData(d: Data): Json {
    JObject([("checksum", EncodeOptional(d.checksum, (c: U32) => JInt(c as int))),
             ("symbol", EncodeOptional(d.symbol, (s: string) => JString(s))),
             ("timestamp", EncodeOptional(d.timestamp, (s: string) => JString(s))),
             ("bids", JArray(EncodeOrderEvents(d.bids))),
             ("asks", JArray(EncodeOrderEvents(d.asks)))])
  }

  function EncodeDataItems(ds: seq<Data>): seq<Json> {
    seq(|ds|, k requires 0 <= k < |ds| => EncodeData(ds[k]))
  }

  function EncodeResponse(r: Response): Json {
    JObject([("channel", JString(r.channel)),
             ("type", JString(r.messageType)),
             ("data", JArray(EncodeDataItems(r.data)))])
  }

  lemma EventTagRoundTrip(t: EventType)
    ensures DecodeEventType(JString(EventTag(t))) == Ok(t)
  {
  }

  lemma OrderEventFieldsPresent(e: OrderEvent)
    ensures var ms := EncodeOrderEvent(e).members;
      && Find(ms, "event") == Present(JString(EventTag(e.event)))
      && Find(ms, "order_id") == Present(JString(e.orderId))
      && Find(ms, "limit_price") == Present(JFloat(e.limitPrice))
      && Find(ms, "order_qty") == Present(JFloat(e.orderQty))
      && Find(ms, "timestamp") == Present(JString(e.timestamp))
  {
    var ms := EncodeOrderEvent(e).members;
    FindInDistinct(ms, 0);
    FindInDistinct(ms, 1);
    FindInDistinct(ms, 2);
    FindInDistinct(ms, 3);
    FindInDistinct(ms, 4);
  }

  lemma OrderEventRoundTrip(e: OrderEvent)
    ensures DecodeOrderEvent(EncodeOrderEvent(e)) == Ok(e)
  {
    OrderEventFieldsPresent(e);
    EventTagRoundTrip(e.event);
  }

  /** A list of events decodes to `es` when every item decodes to the event
      at its place: the converse of `DecodeOrderEvents`'s contract. */
  lemma {:induction false} DecodeOrderEventsEach(items: seq<Json>, es: seq<OrderEvent>)
    requires |items| == |es|
    requires forall k :: 0 <= k < |items| ==> DecodeOrderEvent(items[k]) == Ok(es[k])
    ensures DecodeOrderEvents(items) == Ok(es)
  {
    if items != [] {
      forall k | 0 <= k < |items| - 1 ensures DecodeOrderEvent(items[1..][k]) == Ok(es[1..][k]) {
        assert items[1..][k] == items[k + 1] && es[1..][k] == es[k + 1];
      }
      DecodeOrderEventsEach(items[1..], es[1..]);
      assert [es[0]] + es[1..] == es;
    }
  }

  lemma OrderEventsRoundTrip(es: seq<OrderEvent>)
    ensures DecodeOrderEvents(EncodeOrderEvents(es)) == Ok(es)
  {
    var items := EncodeOrderEvents(es);
    forall k | 0 <= k < |items| ensures DecodeOrderEvent(items[k]) == Ok(es[k]) {
      OrderEventRoundTrip(es[k]);
    }
    DecodeOrderEventsEach(items, es);
  }

  lemma DataFieldsPresent(d: Data)
    ensures var ms := EncodeData(d).members;
      && Find(ms, "checksum") == Present(ms[0].1)
      && Find(ms, "symbol") == Present(ms[1].1)
      && Find(ms, "timestamp") == Present(ms[2].1)
      && Find(ms, "bids") == Present(ms[3].1)
      && Find(ms, "asks") == Present(ms[4].1)
  {
    var ms := EncodeData(d).members;
    FindInDistinct(ms, 0);
    FindInDistinct(ms, 1);
    FindInDistinct(ms, 2);
    FindInDistinct(ms, 3);
    FindInDistinct(ms, 4);
  }

  lemma DataOptionalsRoundTrip(d: Data)
    ensures var ms := EncodeData(d).members;
      && OptionalField(ms, "checksum", U32Field("checksum")) == Ok(d.checksum)
      && OptionalField(ms, "symbol", AsString) == Ok(d.symbol)
      && OptionalField(ms, "timestamp", AsString) == Ok(d.timestamp)
  {
    DataFieldsPresent(d);
  }

  lemma DataListsRoundTrip(d: Data)
    ensures var ms := EncodeData(d).members;
      && EventListField(ms, "bids") == Ok(d.bids)
      && EventListField(ms, "asks") == Ok(d.asks)
  {
    DataFieldsPresent(d);
    OrderEventsRoundTrip(d.bids);
    OrderEventsRoundTrip(d.asks);
  }

  lemma DataRoundTrip(d: Data)
    ensures DecodeData(EncodeData(d)) == Ok(d)
  {
    DataOptionalsRoundTrip(d);
    DataListsRoundTrip(d);
  }

  /** A data list decodes to `ds` when every item decodes to the data item at
      its place: the converse of `DecodeDataItems`'s contract. */
  lemma {:induction false} DecodeDataItemsEach(items: seq<Json>, ds: seq<Data>)
    requires |items| == |ds|
    requires forall k :: 0 <= k < |items| ==> DecodeData(items[k]) == Ok(ds[k])
    ensures DecodeDataItems(items) == Ok(ds)
  {
    if items != [] {
      forall k | 0 <= k < |items| - 1 ensures DecodeData(items[1..][k]) == Ok(ds[1..][k]) {
        assert items[1..][k] == items[k + 1] && ds[1..][k] == ds[k + 1];
      }
      DecodeDataItemsEach(items[1..], ds[1..]);
      assert [ds[0]] + ds[1..] == ds;
    }
  }

  lemma DataItemsRoundTrip(ds: seq<Data>)
    ensures DecodeDataItems(EncodeDataItems(ds)) == Ok(ds)
  {
    var items := EncodeDataItems(ds);
    forall k | 0 <= k < |items| ensures DecodeData(items[k]) == Ok(ds[k]) {
      DataRoundTrip(ds[k]);
    }
    DecodeDataItemsEach(items, ds);
  }

  lemma ResponseFieldsPresent(r: Response)
    ensures var ms := EncodeResponse(r).members;
      && Find(ms, "channel") == Present(JString(r.channel))
      && Find(ms, "type") == Present(JString(r.messageType))
      && Find(ms, "data") == Present(JArray(EncodeDataItems(r.data)))
  {
    var ms := EncodeResponse(r).members;
    FindInDistinct(ms, 0);
    FindInDistinct(ms, 1);
    FindInDistinct(ms, 2);
  }

  /** Every envelope is recovered from its canonical JSON: the decoder
      accepts the whole schema. */
  lemma ResponseRoundTrip(r: Response)
    ensures DecodeResponse(EncodeResponse(r)) == Ok(r)
  {
    ResponseFieldsPresent(r);
    DataItemsRoundTrip(r.data);
  }

  function EncodeTokenResult(t: TokenResponseResult): Json {
    JObject([("token", JString(t.token)), ("expires", JInt(t.expires as int))])
  }

  /** The token response as the exchange writes it: the error list, then
      the result or null. */
  function EncodeTokenResponse(t: TokenResponse): Json {
    JObject([("error", StringArray(t.error)), ("result", EncodeOptional(t.result, EncodeTokenResult))])
  }

  lemma TokenResultRoundTrip(t: TokenResponseResult)
    ensures DecodeTokenResult(EncodeTokenResult(t)) == Ok(t)
  {
    var ms := EncodeTokenResult(t).members;
    FindInDistinct(ms, 0);
    FindInDistinct(ms, 1);
  }

  /** Every token response, with or without a result, is recovered from its
      JSON: the decoder accepts the whole schema. */
  lemma TokenResponseRoundTrip(t: TokenResponse)
    ensures DecodeTokenResponse(EncodeTokenResponse(t)) == Ok(t)
  {
    var ms := EncodeTokenResponse(t).members;
    FindInDistinct(ms, 0);
    FindInDistinct(ms, 1);
    if t.result.Some? {
      TokenResultRoundTrip(t.result.value);
    }
  }

  /** A token response without a "result" key decodes exactly as the same
      object with a null result, errors included. */
  lemma MissingResultDecodesAsNull(ms: seq<(string, Json)>)
    requires Find(ms, "result") == Absent
    ensures DecodeTokenResponse(JObject(ms)) == DecodeTokenResponse(JObject(ms + [("result", JNull)]))
  {
    FindAfterAppend(ms, "result", JNull, "result");
    FindAfterAppend(ms, "result", JNull, "error");
  }

  /** A data item is decided by what its five fields decode to. */
  lemma DataDecidedByFields(a: seq<(string, Json)>, b: seq<(string, Json)>)
    requires OptionalField(a, "checksum", U32Field("checksum")) == OptionalField(b, "checksum", U32Field("checksum"))
    requires OptionalField(a, "symbol", AsString) == OptionalField(b, "symbol", AsString)
    requires OptionalField(a, "timestamp", AsString) == OptionalField(b, "timestamp", AsString)
    requires EventListField(a, "bids") == EventListField(b, "bids")
    requires EventListField(a, "asks") == EventListField(b, "asks")
    ensures DecodeData(JObject(a)) == DecodeData(JObject(b))
  {
  }

  /** A data item without "bids" (or "asks") decodes exactly as the same
      object with an empty list under that key, errors included. */
  lemma MissingListDecodesAsEmpty(ms: seq<(string, Json)>, key: string)
    requires key == "bids" || key == "asks"
    requires Find(ms, key) == Absent
    ensures DecodeData(JObject(ms)) == DecodeData(JObject(ms + [(key, JArray([]))]))
  {
    var ms' := ms + [(key, JArray([]))];
    FindAfterAppend(ms, key, JArray([]), "checksum");
    FindAfterAppend(ms, key, JArray([]), "symbol");
    FindAfterAppend(ms, key, JArray([]), "timestamp");
    FindAfterAppend(ms, key, JArray([]), "bids");
    FindAfterAppend(ms, key, JArray([]), "asks");
    assert EventListField(ms, key) == Ok([]) == EventListField(ms', key);
    DataDecidedByFields(ms, ms');
  }

  /** A data item without "checksum", "symbol" or "timestamp" decodes exactly
      as the same object with null under that key, errors included. */
  lemma MissingOptionalDecodesAsNull(ms: seq<(string, Json)>, key: string)
    requires key == "checksum" || key == "symbol" || key == "timestamp"
    requires Find(ms, key) == Absent
    ensures DecodeData(JObject(ms)) == DecodeData(JObject(ms + [(key, JNull)]))
  {
    var ms' := ms + [(key, JNull)];
    FindAfterAppend(ms, key, JNull, "checksum");
    FindAfterAppend(ms, key, JNull, "symbol");
    FindAfterAppend(ms, key, JNull, "timestamp");
    FindAfterAppend(ms, key, JNull, "bids");
    FindAfterAppend(ms, key, JNull, "asks");
    DataDecidedByFields(ms, ms');
  }

  /** An event without an "event" key decodes exactly as the same event
      tagged "add". */
  lemma MissingTagDecodesAsAdd(ms: seq<(string, Json)>)
    requires Find(ms, "event") == Absent
    ensures DecodeOrderEvent(JObject(ms)) == DecodeOrderEvent(JObject(ms + [("event", JString("add"))]))
  {
    var tag := JString("add");
    FindAfterAppend(ms, "event", tag, "order_id");
    FindAfterAppend(ms, "event", tag, "limit_price");
    FindAfterAppend(ms, "event", tag, "order_qty");
    FindAfterAppend(ms, "event", tag, "timestamp");
  }

  /** An empty object is a data item with every default. */
  lemma EmptyDataItem()
    ensures DecodeData(JObject([])) == Ok(Data(None, None, None, [], []))
  {
  }
}
