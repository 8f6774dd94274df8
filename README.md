# Kraken level-3 adapter of matchstick, modelled in Dafny

matchstick mirrors Kraken's level-3 (per-order) BTC/USD book into a local
matching engine. The modelled core consists of:

- **Session bootstrap** (`src/kraken/client.rs`). It reads the API key and
  secret from the environment and signs a token request with Kraken's REST
  scheme. The signature is the base64 of HMAC-SHA512, keyed with the decoded
  secret, over the path followed by SHA-256(nonce + post data).
- **Token and subscription.** The signed request fetches a websocket token.
  The client then opens the level-3 feed and sends one subscribe request.
- **Wire schema** (`src/kraken/messages.rs`). These are the serde records for
  the token response, the subscribe request and the streamed envelopes.
- **Reconciler** (`src/kraken/adapter.rs`). It checks an envelope and clears
  trade history on a snapshot. It then replays every event into the order
  book, in order:
  - data item after data item;
  - within an item, bids as Buy before asks as Sell;
  - it stops at the first event the book refuses.

  An add for an id already resting is a replace: a cancel followed by a
  second add, whose results are ignored.

Modules:

- `Wrappers`: `Option`, `Result`, the `Outcome` of a call that returns
  nothing, and the `u32`/`u64` ranges.
- `Json`: decoded JSON values and serde's field rules. Under those rules:
  - an unknown key is ignored;
  - a repeated key is refused;
  - an absent `Option` is `None`;
  - an unsigned field takes only integer literals;
  - an `f64` field takes any number.
- `Messages`: the records, their decoders, and the serializer of the
  subscribe request. It also has canonical encoders for the feed and token records,
  used to prove the decoders accept the whole schema.
- `Matchbook`: what the adapter relies on from the external `matchbook`
  order book:
  - resting orders keyed by id;
  - a separate trade history;
  - `add_order`, `cancel_order`, `modify_order` and `clear_trades`.

  The book may refuse a fresh order for reasons of its own. That choice is an
  abstract admission policy fixed when the book is built.
- `Adapter`:
  - the conversions to book types;
  - `Reconcile`, the specification of one envelope (a fold `ApplyAll` over
    the events in `Flatten` order);
  - the imperative `ProcessMessage` / `ProcessEvent` on an `Orderbook`
    object, proved equal to it.
- `Client`:
  - UTF-8 bytes of text;
  - the nonce;
  - the signature, with the SHA-256, HMAC-SHA512 and base64 primitives as
    parameters;
  - the token-response classification;
  - the subscribe request;
  - `New`, the whole bootstrap, with the environment, clock and network as
    inputs.

## Model

| member | source | states |
|---|---|---|
| Json.AsF64 | src/kraken/messages.rs:63-64 | an `f64` field accepts exactly the JSON numbers, integer literals included, with their value |
| Json.AsU32 | src/kraken/messages.rs:46-47 | a `u32` field accepts exactly the integer literals in [0, 2^32), with their value |
| Json.AsU64 | src/kraken/messages.rs:14 | a `u64` field accepts exactly the integer literals in [0, 2^64), with their value |
| Json.AsStrings | src/kraken/messages.rs:7 | a `Vec<String>` accepts exactly the arrays of strings, item for item |
| Json.Required | src/kraken/messages.rs:62-65 | a field without a default decodes iff its key occurs exactly once; absent is `MissingField` |
| Messages.DecodeEventType | src/kraken/messages.rs:68-76 | the enum decodes iff the value is one of the strings "add", "modify", "delete", and the variant's tag is that string |
| Messages.OptionalField | src/kraken/messages.rs:46-51 | an `Option` field with a default: absent or null is `None`, repeated is an error, and a present non-null value is accepted iff it decodes, giving `Some` of what it decodes to |
| Messages.EventField | src/kraken/messages.rs:60-61 | the "event" field: absent is Add (`default_event`), a single occurrence is the enum decoded from it, repeated is an error |
| Messages.DecodeOrderEvent | src/kraken/messages.rs:58-66 | an object decodes iff its "event" field decodes, order_id and timestamp are single strings, and limit_price and order_qty single numbers; the event carries exactly those values |
| Messages.DecodeOrderEvents | src/kraken/messages.rs:53 | a list of events decodes item for item, same length |
| Messages.EventListField | src/kraken/messages.rs:52-55 | a defaulted list: absent is empty, a single array is decoded item for item, and anything else, null included, is refused |
| Messages.DecodeData | src/kraken/messages.rs:44-56 | an object decodes iff each of its five fields decodes; every field is optional: each absent one takes its default (None or empty), and each field holds what its key decodes to |
| Messages.DecodeDataItems | src/kraken/messages.rs:41 | the data list decodes item for item, same length |
| Messages.DecodeResponse | src/kraken/messages.rs:36-42 | an object decodes iff "channel" and "type" are single strings and "data" a single array whose items all decode; the envelope carries those strings and the decoded items |
| Messages.DecodeTokenResult | src/kraken/messages.rs:11-15 | an object decodes iff token is a single string and expires a single `u64` literal; the result carries those values |
| Messages.DecodeTokenResponse | src/kraken/messages.rs:3-8 | an object decodes iff its result field decodes (absent or null is `None`) and error is a single list of strings; the response carries those values |
| Messages.TokenResultRoundTrip | src/kraken/messages.rs:11-15 | every token result is recovered from its JSON object |
| Messages.TokenResponseRoundTrip | src/kraken/messages.rs:3-15 | every token response is recovered from its JSON object, with or without a result |
| Messages.MissingResultDecodesAsNull | src/kraken/messages.rs:6 | a response without "result" decodes exactly as the same object with a null result, errors included |
| Messages.StringArray | src/kraken/messages.rs:26 | a list of strings is written as an array that reads back as the same list |
| Messages.EncodeSubscribeParams | src/kraken/messages.rs:23-34 | the parameters are written as an object whose first members are channel and symbol, with one member per always-written field and one per set optional field |
| Messages.EncodeSubscribeRequest | src/kraken/messages.rs:17-21 | the request is an object with "method" holding the method string and "params" holding the serialized parameters, once each |
| Messages.Skippable | src/kraken/messages.rs:27-33 | a field skipped when `None` writes no member for `None` and one member for `Some` |
| Messages.SkippableOccurrences | src/kraken/messages.rs:27-33 | a skippable field contributes its key once exactly when it is set |
| Messages.SubscribeParamsOccurrences | src/kraken/messages.rs:23-34 | the serialized parameters hold each key as many times as the field is written, with its value; symbol is the array of the symbol strings |
| Messages.SubscribeParamsRequiredFields | src/kraken/messages.rs:23-34 | channel, symbol (as the array of its strings) and token are always written once, with their values |
| Messages.SubscribeParamsSkippedFields | src/kraken/messages.rs:27-33 | depth, snapshot and req_id are written exactly when set, with their values |
| Messages.EventTagRoundTrip | src/kraken/messages.rs:68-76 | every variant decodes from its renamed tag |
| Messages.OrderEventFieldsPresent | src/kraken/messages.rs:58-66 | the canonical JSON of an event holds each of its five keys exactly once, with the field's value |
| Messages.OrderEventRoundTrip | src/kraken/messages.rs:58-76 | decoding the canonical JSON of an event gives the event back |
| Messages.DecodeOrderEventsEach | src/kraken/messages.rs:53-55 | a list decodes to the events each of its items decodes to, the converse of `DecodeOrderEvents`'s contract |
| Messages.OrderEventsRoundTrip | src/kraken/messages.rs:53-55 | the same for a list of events |
| Messages.DataFieldsPresent | src/kraken/messages.rs:44-56 | the canonical JSON of a data item holds each of its five keys exactly once |
| Messages.DataOptionalsRoundTrip | src/kraken/messages.rs:46-51 | checksum, symbol and timestamp are recovered from the canonical JSON |
| Messages.DataListsRoundTrip | src/kraken/messages.rs:52-55 | bids and asks are recovered from the canonical JSON |
| Messages.DataRoundTrip | src/kraken/messages.rs:44-56 | decoding the canonical JSON of a data item gives it back |
| Messages.DecodeDataItemsEach | src/kraken/messages.rs:41 | the data list decodes to the items each of its entries decodes to, the converse of `DecodeDataItems`'s contract |
| Messages.DataItemsRoundTrip | src/kraken/messages.rs:41 | the same for the data list |
| Messages.ResponseFieldsPresent | src/kraken/messages.rs:36-42 | the canonical JSON of an envelope holds "channel", "type" and "data" exactly once |
| Messages.ResponseRoundTrip | src/kraken/messages.rs:36-42 | every envelope is recovered from its canonical JSON: the decoders accept the whole schema |
| Messages.MissingTagDecodesAsAdd | src/kraken/messages.rs:60-61 | an event without an "event" key decodes exactly as the same event tagged "add", errors included |
| Messages.EmptyDataItem | src/kraken/messages.rs:44-56 | `{}` is a data item with every default |
| Messages.MissingListDecodesAsEmpty | src/kraken/messages.rs:52-55 | a data item without "bids" (or "asks") decodes exactly as the same object with an empty array there, errors included |
| Messages.MissingOptionalDecodesAsNull | src/kraken/messages.rs:46-51 | a data item without "checksum", "symbol" or "timestamp" decodes exactly as the same object with null there, errors included |
| Matchbook.AfterAdd | src/kraken/adapter.rs:58-66 | adding fails with IdExists iff the id rests; otherwise it succeeds iff the book admits the order, which then rests under its id; a failure changes nothing |
| Matchbook.AfterCancel | src/kraken/adapter.rs:74-77 | cancel succeeds iff the id rests, and removes it; a failure changes nothing |
| Matchbook.AfterModify | src/kraken/adapter.rs:69-73 | modify succeeds iff the id rests, and sets only that order's quantity; a failure changes nothing |
| Matchbook.Orderbook.AddOrder | src/kraken/adapter.rs:58 | the outcome and the new resting orders are those of `AfterAdd`; the trade history is untouched |
| Matchbook.Orderbook.CancelOrder | src/kraken/adapter.rs:63-64 | the outcome and the new resting orders are those of `AfterCancel`; the trade history is untouched |
| Matchbook.Orderbook.ModifyOrder | src/kraken/adapter.rs:72 | the outcome and the new resting orders are those of `AfterModify`; the trade history is untouched |
| Matchbook.Orderbook.ClearTrades | src/kraken/adapter.rs:25-28 | the trade history is emptied and the resting orders stay |
| Adapter.ToOrderId | src/kraken/adapter.rs:82-84 | the book id carries the feed's id string unchanged |
| Adapter.TruncateToU64 | src/kraken/adapter.rs:86 | Rust's float-to-`u64` cast: below 1 gives 0, in range it is the floor, from 2^64 on it is the largest `u64` |
| Adapter.ToPrice | src/kraken/adapter.rs:85-87 | the price in cents is the wire price times 100, truncated, and 0 for negatives |
| Adapter.ToQuantity | src/kraken/adapter.rs:89-91 | the quantity is the wire quantity times 10^8, truncated, and 0 for negatives |
| Adapter.ToSide | src/kraken/adapter.rs:93-95 | the side is Buy iff the event came from the bid list |
| Adapter.ToOrder | src/kraken/adapter.rs:97-110 | the order has the event's id, is good-till-cancelled, is Buy iff a bid, and carries the converted price and quantity |
| Adapter.PriceTruncates | src/kraken/adapter.rs:86 | 10.5 gives 1050 cents, 10.999 gives 1099 (truncated, not rounded), and -3.25 gives 0 |
| Adapter.QuantityTruncates | src/kraken/adapter.rs:90 | 1e-8 gives 1 unit, 1.9e-8 gives 1, 1.5 gives 150000000 |
| Adapter.Wrap | src/kraken/adapter.rs:12-13 | a book error becomes `OrderError` of the same cause; success stays success |
| Adapter.ApplyEvent | src/kraken/adapter.rs:50-80 | one event; any failure leaves the orders unchanged and is a wrapped book error |
| Adapter.ApplyAll | src/kraken/adapter.rs:37-45 | events in order, stopping at the first failure, which is a wrapped book error |
| Adapter.Reconcile | src/kraken/adapter.rs:16-48 | a wrong channel, then an empty data list, is refused before anything changes; `InvalidType` is never reported; the trade history is kept or, on a snapshot, emptied |
| Adapter.ApplyAllAppend | src/kraken/adapter.rs:37-45 | applying two runs of events is applying the first, then the second only if the first passed |
| Adapter.FlattenAppend | src/kraken/adapter.rs:37-45 | the event order of two runs of items is their concatenation |
| Adapter.PassMeansEveryEventPassed | src/kraken/adapter.rs:39-43 | after a success, every event succeeded on the book the events before it left |
| Adapter.FirstFailureAborts | src/kraken/adapter.rs:39-43 | after a failure there is an event k: all before it were applied, it failed with the reported error, and nothing after it was applied |
| Adapter.AddFresh | src/kraken/adapter.rs:56-59 | an Add for a new id succeeds iff the book admits the converted order, which then rests under its id; otherwise it is rejected and nothing changes |
| Adapter.AddDuplicateReplaces | src/kraken/adapter.rs:60-65 | an Add for a resting id always succeeds; the old order is removed and the new one rests iff the book admits it once the old is gone |
| Adapter.AddDuplicateKeepsNewest | src/kraken/adapter.rs:60-65 | with a book that takes every order, a replace keeps the same ids, the id holds the newest order, and every other order is untouched |
| Adapter.ModifyAndDelete | src/kraken/adapter.rs:69-77 | Modify and Delete on an unknown id fail with NotFound and change nothing; on a resting id they set its quantity or remove it |
| Adapter.MessageTypeOnlyClearsTrades | src/kraken/adapter.rs:25-28 | the message type never affects the outcome or the orders; it only decides whether the trade history is cleared |
| Adapter.ItemsInOrder | src/kraken/adapter.rs:37-45 | an item's bids are applied as Buy, then its asks as Sell, then the remaining items, each stage only if the one before passed |
| Adapter.FlattenSplit | src/kraken/adapter.rs:37 | the event order splits around any item |
| Adapter.SidedSplit | src/kraken/adapter.rs:38-44 | a side's event list splits around any event |
| Adapter.ItemStep | src/kraken/adapter.rs:37-45 | once the items before i passed, item i's events continue the fold |
| Adapter.ProcessEvent | src/kraken/adapter.rs:50-80 | the method's outcome and new orders are those of `ApplyEvent`; trades are untouched |
| Adapter.ProcessSide | src/kraken/adapter.rs:38-44 | one side's loop equals the fold over that side's events |
| Adapter.ProcessItems | src/kraken/adapter.rs:37-45 | the nested loops equal the fold over `Flatten` of the items |
| Adapter.ProcessMessage | src/kraken/adapter.rs:16-48 | the outcome and the new book are exactly `Reconcile` of the old book |
| Client.EncodeChar | src/kraken/client.rs:45-46 | one to four UTF-8 bytes per character, a single byte equal to the code point iff it is below 0x80 |
| Client.Utf8Append | src/kraken/client.rs:45-46 | the bytes of a concatenation are the concatenation of the bytes |
| Client.AsciiBytes | src/kraken/client.rs:45-46 | ASCII text is its own byte string, one byte per character |
| Client.Digits | src/kraken/client.rs:70 | the decimal digits of a natural are a non-empty string of '0'..'9' |
| Client.DecimalString | src/kraken/client.rs:70 | the nonce is non-empty, starts with '-' iff the reading is negative, and is digits after the sign |
| Client.DecimalAscii | src/kraken/client.rs:70 | the nonce is ASCII |
| Client.DigitsRoundTrip | src/kraken/client.rs:70 | reading back the digits gives the number |
| Client.NonceRoundTrip | src/kraken/client.rs:70 | the nonce string parses back to exactly the clock reading |
| Client.PostData | src/kraken/client.rs:71 | the body is exactly "nonce=" followed by the nonce: its first six characters are "nonce=" and the rest is the nonce |
| Client.MacInput | src/kraken/client.rs:49-52 | the HMAC message is the path's bytes followed by the 32-byte SHA-256 of nonce and post data |
| Client.Signature | src/kraken/client.rs:42-64 | the API-Sign value is base64 of HMAC-SHA512, keyed with the decoded secret, over the path's bytes followed by SHA-256 of the nonce's and post data's bytes |
| Client.KrakenApiSign | src/kraken/client.rs:42-64 | the streamed hasher and message buffer produce `Signature`: base64 of HMAC-SHA512 under the decoded secret over `MacInput` |
| Client.Join | src/kraken/client.rs:111 | no parts join to "", the text ends with the last part, and with two or more parts it starts with the first part and the separator |
| Client.JoinLength | src/kraken/client.rs:111 | the joined error text's length is the messages' total plus one separator per gap, and it starts with the first message |
| Client.ClassifyToken | src/kraken/client.rs:110-114 | a non-empty error list is `ApiError` of the messages joined by ", ", checked before the result; otherwise a missing result is `MissingToken`; the token is returned iff both hold |
| Client.GetWsToken | src/kraken/client.rs:88-115 | a transport failure or an undecodable body is `InvalidRequest`; a decoded response is classified |
| Client.SubscribeFor | src/kraken/client.rs:121-133 | method "subscribe", channel "level3", symbol BTC/USD, depth 1000, snapshot on, the token as given, no req_id |
| Client.SubscribeMessage | src/kraken/client.rs:121-135 | the serialized request has method "subscribe", and params with channel "level3", symbol `["BTC/USD"]`, the token, depth 1000, snapshot true and no req_id key |
| Client.TokenRequestFor | src/kraken/client.rs:70-77 | the token request goes to the token URL with the API key, the body "nonce=<millis>", and the signature of that body under the secret |
| Client.ConnectWithToken | src/kraken/client.rs:117-139 | the client starts iff the websocket connects and takes the subscribe request; a failure of either is `FailedToConnect`, never a panic |
| Client.New | src/kraken/client.rs:66-86 | a missing variable is `MissingApiKey`; the only returned errors are `MissingApiKey` and `FailedToConnect`; a bad secret or a failed token exchange panics; otherwise the outcome is `ConnectWithToken` of the token |
| Client.NewStarted | src/kraken/client.rs:66-86 | a started client had both variables, a decodable secret, a token, a connection, and a sent subscribe request |
| Client.TokenSigningLayout | src/kraken/client.rs:70-76 | the token request hashes the nonce, then "nonce=", then the nonce again, 2n+6 bytes, and the HMAC message ends with that digest |

## Left out

- Floating point: wire decimals are exact reals. The products `price * 100.0` and `qty * 1e8` are computed exactly before truncation, so IEEE-754 rounding is not modelled. For example, `0.29 * 100.0` is 28.999999999999996 in `f64`, so the program stores 28 cents where the model stores 29. NaN cannot come from JSON.
- JSON text: parsing and printing are not modelled. Decoders start from a decoded `Json` value, and the subscribe request is given as the `Json` that `serde_json::to_string` writes.
- Serde also accepts some other encodings. The model does not cover:
  - a struct written as a JSON array;
  - the `{"add": null}` form of a unit enum variant;
  - a float literal with zero fraction for an integer field (serde_json refuses it, as the model does, but the model does not state the error message).
- Error precedence: when several fields are wrong, the decoders report the first in declaration order, whereas serde reports type and duplicate errors in the order the keys appear, and missing fields last. The contracts state which inputs are accepted, what each field decodes to, and that a missing required key is an error, but not which error is reported when several fields are wrong.
- `Json.Required`: a repeated key is refused here. serde_json refuses it too, with "duplicate field", but only for fields the struct declares. The ensures states acceptance, not the message.
- The `matchbook` crate is not part of this model:
  - Matching and trade generation are left out.
  - The adapter only relies on add, cancel, modify and clear_trades, which `Matchbook` states.
  - `NotFound` and `Rejected` are this model's names for the book's other errors. Only `IdExists` is named by the adapter.
  - Prices and quantities are the adapter's fixed-point `u64`s.
- `Matchbook.Orderbook`: its methods are written from the assumed contracts and model no internal state beyond the id map and the trade list.
- Logging and `get_levels`: the `println!` calls in `process_message` and its level counts have no effect on the outcome or the book, and are left out.
- `Adapter.ProcessSide` and `Adapter.ProcessItems` are the inner and outer loops of `process_message`, split into methods of their own. They do not exist separately in the source.
- Environment, clock, HTTP and websocket I/O are inputs: `Environment`, the `millis` reading, and `Network` (the POST answer, connect, send). async scheduling, TLS, timeouts and the stream object itself are left out. `Client.KrakenClient` keeps only the URL.
- `RequestError` and `WsError` stand for `reqwest::Error` and `tungstenite::Error`, reduced to the two situations the code can meet.
- SHA-256, HMAC-SHA512 and base64 are uninterpreted functions. `Primitives` fixes only their output lengths, so results are stated as compositions of them.
- `Client.TokenSigningLayout`: it does not state the URL's byte length (51), since the model does not unfold the 51-character literal.
- `Client.DecimalString`: the clock reading is any integer. The `i64` bound of `timestamp_millis` does not affect its decimal text.
- The `TokenRequest` struct of client.rs (lines 36-39) is never used by the program and is not modelled.
- A panic is a `Panicked` outcome of `New`. `KrakenApiSign` instead requires a decodable secret, since a method cannot return a panic.
- `HmacSha512::new_from_slice` cannot fail for any key length, and `into_client_request` is applied to a fixed valid URL. Neither `expect` is modelled as a failure.
- The main.rs prototype, the benches and the benchmarking statistics are outside the modelled core.
