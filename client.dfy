/** The session bootstrap of src/kraken/client.rs, without its I/O.

    The REST signature follows the exchange's scheme: SHA-256 (FIPS 180-4)
    over the nonce followed by the post data, the request path's bytes
    followed by that 32-byte digest as the message of an HMAC-SHA512
    (RFC 2104) keyed with the base64-decoded secret, and the MAC written in
    base64 (section 4 of RFC 4648). The primitives are parameters of the
    model (`Primitives`), so only their composition and the layout of their
    inputs are stated. Environment variables, the clock, the HTTP exchange
    and the websocket are inputs too (`Environment`, the clock reading,
    `Network`). */
module Client {
  import opened Wrappers
  import opened Json
  import opened Messages

  newtype Byte = b: int | 0 <= b < 256

  type Digest = s: seq<Byte> | |s| == 32 witness seq(32, _ => 0 as Byte)

  type Mac = s: seq<Byte> | |s| == 64 witness seq(64, _ => 0 as Byte)

  /** SHA-256, HMAC-SHA512 (key, message), and standard base64 with padding. */
  datatype Primitives = Primitives(
    sha256: seq<Byte> -> Digest,
    hmacSha512: (seq<Byte>, seq<Byte>) -> Mac,
    base64Encode: seq<Byte> -> string,
    base64Decode: string -> Option<seq<Byte>>)

  // ---------------------------------------------------------------------
  // Text as bytes (`str::as_bytes`, UTF-8)
  // ---------------------------------------------------------------------

  function EncodeChar(c: char): (r: seq<Byte>)
    ensures 1 <= |r| <= 4
    ensures |r| == 1 <==> c as int < 0x80
    ensures c as int < 0x80 ==> r[0] as int == c as int
  {
    var n := c as int;
    if n < 0x80 then [n as Byte]
    else if n < 0x800 then [(0xC0 + n / 0x40) as Byte, (0x80 + n % 0x40) as Byte]
    else if n < 0x1_0000 then
      [(0xE0 + n / 0x1000) as Byte, (0x80 + n / 0x40 % 0x40) as Byte, (0x80 + n % 0x40) as Byte]
    else
      [(0xF0 + n / 0x4_0000) as Byte, (0x80 + n / 0x1000 % 0x40) as Byte,
       (0x80 + n / 0x40 % 0x40) as Byte, (0x80 + n % 0x40) as Byte]
  }

  function Utf8(s: string): seq<Byte> {
    if s == [] then [] else EncodeChar(s[0]) + Utf8(s[1..])
  }

  predicate IsAscii(s: string) {
    forall k :: 0 <= k < |s| ==> s[k] as int < 0x80
  }

  lemma {:induction false} Utf8Append(a: string, b: string)
    ensures Utf8(a + b) == Utf8(a) + Utf8(b)
  {
    if a == [] {
      assert a + b == b;
    } else {
      assert (a + b)[0] == a[0] && (a + b)[1..] == a[1..] + b;
      Utf8Append(a[1..], b);
    }
  }

  /** ASCII text is its own byte string, one byte per character. */
  lemma {:induction false} AsciiBytes(s: string)
    requires IsAscii(s)
    ensures |Utf8(s)| == |s|
    ensures forall k :: 0 <= k < |s| ==> Utf8(s)[k] as int == s[k] as int
  {
    if s != [] {
      AsciiBytes(s[1..]);
      assert Utf8(s) == EncodeChar(s[0]) + Utf8(s[1..]);
      forall k | 0 <= k < |s| ensures Utf8(s)[k] as int == s[k] as int {
        if k > 0 {
          assert Utf8(s)[k] == Utf8(s[1..])[k - 1];
        }
      }
    }
  }

  // ---------------------------------------------------------------------
  // The nonce
  // ---------------------------------------------------------------------

  function DigitChar(d: nat): char
    requires d < 10
  {
    ('0' as int + d) as char
  }

  function Digits(n: nat): (r: string)
    ensures |r| > 0
    ensures forall k :: 0 <= k < |r| ==> '0' <= r[k] <= '9'
  {
    if n < 10 then [DigitChar(n)] else Digits(n / 10) + [DigitChar(n % 10)]
  }

  /** `i64::to_string` of the millisecond clock reading. */
  function DecimalString(n: int): (r: string)
    ensures |r| > 0 && (r[0] == '-' <==> n < 0)
    ensures IsDigits(if n < 0 then r[1..] else r)
  {
    if n < 0 then "-" + Digits(-n) else Digits(n)
  }

  predicate IsDigits(s: string) {
    |s| > 0 && forall k :: 0 <= k < |s| ==> '0' <= s[k] <= '9'
  }

  function DigitsValue(s: string): nat
    requires IsDigits(s)
  {
    var last := s[|s| - 1] as int - '0' as int;
    if |s| == 1 then last else DigitsValue(s[..|s| - 1]) * 10 + last
  }

  /** How the exchange reads a nonce: an optionally signed decimal integer. */
  function ParseDecimal(s: string): Option<int> {
    if |s| > 0 && s[0] == '-' then
      if IsDigits(s[1..]) then Some(-(DigitsValue(s[1..]) as int)) else None
    else if IsDigits(s) then Some(DigitsValue(s))
    else None
  }

  lemma {:induction false} DigitsRoundTrip(n: nat)
    ensures DigitsValue(Digits(n)) == n
  {
    if n >= 10 {
      var s := Digits(n);
      assert s[..|s| - 1] == Digits(n / 10);
      DigitsRoundTrip(n / 10);
    }
  }

  lemma DecimalAscii(n: int)
    ensures IsAscii(DecimalString(n))
  {
    var s := DecimalString(n);
    var d := if n < 0 then Digits(-n) else Digits(n);
    forall k | 0 <= k < |s| ensures s[k] as int < 0x80 {
      if n < 0 && k == 0 {
        assert s[k] == '-';
      } else {
        assert s[k] == d[if n < 0 then k - 1 else k];
      }
    }
  }

  lemma ParseSigned(d: string)
    requires IsDigits(d)
    ensures ParseDecimal(d) == Some(DigitsValue(d) as int)
    ensures ParseDecimal("-" + d) == Some(-(DigitsValue(d) as int))
  {
    assert d[0] != '-';
    assert ("-" + d)[0] == '-' && ("-" + d)[1..] == d;
  }

  /** The nonce string denotes exactly the clock reading it was made from. */
  lemma NonceRoundTrip(millis: int)
    ensures ParseDecimal(DecimalString(millis)) == Some(millis)
  {
    var n: nat := if millis < 0 then -millis else millis;
    DigitsRoundTrip(n);
    ParseSigned(Digits(n));
  }

  /** The body of the token request. */
  function PostData(nonce: string): (r: string)
    ensures |r| == |nonce| + 6 && r[..6] == "nonce=" && r[6..] == nonce
  {
    "nonce=" + nonce
  }

  // ---------------------------------------------------------------------
  // The request signature
  // ---------------------------------------------------------------------

  /** The bytes the SHA-256 hasher absorbs: the nonce, then the post data. */
  function HashInput(nonce: string, postdata: string): seq<Byte> {
    Utf8(nonce) + Utf8(postdata)
  }

  /** The HMAC message: the path's bytes followed by the digest. */
  function MacInput(p: Primitives, path: string, nonce: string, postdata: string): (r: seq<Byte>)
    ensures |r| == |Utf8(path)| + 32
    ensures r[..|Utf8(path)|] == Utf8(path)
    ensures r[|Utf8(path)|..] == p.sha256(HashInput(nonce, postdata))
  {
    Utf8(path) + p.sha256(HashInput(nonce, postdata))
  }

  /** The value of the API-Sign header. */
  function Signature(p: Primitives, path: string, nonce: string, postdata: string, secret: string): (r: string)
    requires p.base64Decode(secret).Some?
    ensures r == p.base64Encode(p.hmacSha512(p.base64Decode(secret).value,
                                             Utf8(path) + p.sha256(Utf8(nonce) + Utf8(postdata))))
  {
    p.base64Encode(p.hmacSha512(p.base64Decode(secret).value, MacInput(p, path, nonce, postdata)))
  }

  /** `kraken_api_sign`: the hasher and the message buffer are grown step by
      step; a secret that is not base64 makes the source panic. */
  method KrakenApiSign(p: Primitives, path: string, nonce: string, postdata: string, secret: string)
    returns (sig: string)
    requires p.base64Decode(secret).Some?
    ensures sig == Signature(p, path, nonce, postdata, secret)
  {
    var absorbed: seq<Byte> := [];
    absorbed := absorbed + Utf8(nonce);
    absorbed := absorbed + Utf8(postdata);
    assert absorbed == HashInput(nonce, postdata);
    var hash := p.sha256(absorbed);
    var message: seq<Byte> := [];
    message := message + Utf8(path);
    message := message + hash;
    assert message == MacInput(p, path, nonce, postdata);
    var key := p.base64Decode(secret).value;
    var mac := p.hmacSha512(key, message);
    sig := p.base64Encode(mac);
  }

  // ---------------------------------------------------------------------
  // Token exchange
  // ---------------------------------------------------------------------

  /** The failures `reqwest` reports: the request could not be sent, or the
      body is not a token response. */
  datatype RequestError = SendFailed | BodyNotDecodable

  /** The websocket failures `tungstenite` reports while connecting or
      sending the subscribe message. */
  datatype WsError = ConnectRefused | SendRefused

  datatype ConnectionError =
    | FailedToConnect(ws: WsError)
    | MissingApiKey
    | InvalidRequest(request: RequestError)
    | MissingToken
    | ApiError(message: string)

  /** `[String]::join`. */
  function Join(parts: seq<string>, sep: string): (r: string)
    ensures parts == [] ==> r == ""
    ensures parts != [] ==> |r| >= |parts[|parts| - 1]| && r[|r| - |parts[|parts| - 1]|..] == parts[|parts| - 1]
    ensures |parts| > 1 ==> |r| >= |parts[0]| + |sep| && r[..|parts[0]| + |sep|] == parts[0] + sep
  {
    if |parts| == 0 then ""
    else if |parts| == 1 then parts[0]
    else parts[0] + sep + Join(parts[1..], sep)
  }

  function TotalLength(parts: seq<string>): nat {
    if parts == [] then 0 else |parts[0]| + TotalLength(parts[1..])
  }

  /** The joined text holds every part once and one separator between each
      two neighbours. */
  lemma {:induction false} JoinLength(parts: seq<string>, sep: string)
    requires parts != []
    ensures |Join(parts, sep)| == TotalLength(parts) + |sep| * (|parts| - 1)
    ensures Join(parts, sep)[..|parts[0]|] == parts[0]
  {
    if |parts| > 1 {
      var rest := parts[1..];
      var j := Join(parts, sep);
      assert j == parts[0] + sep + Join(rest, sep);
      assert j[..|parts[0]|] == parts[0];
      JoinLength(rest, sep);
      assert TotalLength(parts) == |parts[0]| + TotalLength(rest);
      assert |sep| * (|parts| - 1) == |sep| + |sep| * (|rest| - 1);
    }
  }

  /** The classification at the end of `get_ws_token`: the error list is
      looked at before the result. */
  function ClassifyToken(t: TokenResponse): (r: Result<string, ConnectionError>)
    ensures t.error != [] ==> r == Err(ApiError(Join(t.error, ", ")))
    ensures t.error == [] && t.result.None? ==> r == Err(MissingToken)
    ensures r.Ok? <==> t.error == [] && t.result.Some?
    ensures r.Ok? ==> r.value == t.result.value.token
  {
    if t.error != [] then Err(ApiError(Join(t.error, ", ")))
    else match t.result
      case None => Err(MissingToken)
      case Some(result) => Ok(result.token)
  }

  /** `get_ws_token` after the HTTP exchange: transport and body failures are
      `InvalidRequest`, then the response is classified. */
  function GetWsToken(response: Result<Json, RequestError>): (r: Result<string, ConnectionError>)
    ensures response.Err? ==> r == Err(InvalidRequest(response.error))
    ensures response.Ok? && DecodeTokenResponse(response.value).Err? ==> r == Err(InvalidRequest(BodyNotDecodable))
    ensures response.Ok? && DecodeTokenResponse(response.value).Ok? ==> r == ClassifyToken(DecodeTokenResponse(response.value).value)
  {
    match response
    case Err(e) => Err(InvalidRequest(e))
    case Ok(body) =>
      match DecodeTokenResponse(body)
      case Err(_) => Err(InvalidRequest(BodyNotDecodable))
      case Ok(t) => ClassifyToken(t)
  }

  // ---------------------------------------------------------------------
  // Subscribe request and bootstrap
  // ---------------------------------------------------------------------

  /** The request built in `connect_with_token`. */
  function SubscribeFor(token: string): (r: SubscribeRequest)
    ensures r.requestMethod == "subscribe"
    ensures r.params.channel == "level3" && r.params.symbol == ["BTC/USD"]
    ensures r.params.depth == Some(1000) && r.params.snapshot == Some(true) && r.params.reqId == None
    ensures r.params.token == token
  {
    SubscribeRequest("subscribe", SubscribeParams("level3", ["BTC/USD"], Some(1000), Some(true), token, None))
  }

  /** What goes on the wire: method "subscribe", and among the parameters a
      depth of 1000, a snapshot flag, the token as given, and no req_id. */
  lemma SubscribeMessage(token: string)
    ensures var ms := EncodeSubscribeRequest(SubscribeFor(token)).members;
      && Find(ms, "method") == Present(JString("subscribe"))
      && Find(ms, "params").Present? && Find(ms, "params").value.JObject?
      && var ps := Find(ms, "params").value.members;
      && Find(ps, "channel") == Present(JString("level3"))
      && Find(ps, "symbol") == Present(JArray([JString("BTC/USD")]))
      && Find(ps, "token") == Present(JString(token))
      && Find(ps, "depth") == Present(JInt(1000))
      && Find(ps, "snapshot") == Present(JBool(true))
      && Find(ps, "req_id") == Absent
  {
    var ms := EncodeSubscribeRequest(SubscribeFor(token)).members;
    FindInDistinct(ms, 0);
    FindInDistinct(ms, 1);
    SubscribeParamsRequiredFields(SubscribeFor(token).params);
    SubscribeParamsSkippedFields(SubscribeFor(token).params);
    assert StringArray(["BTC/USD"]) == JArray([JString("BTC/USD")]);
  }

  const TOKEN_URL: string := "https://" + "api.kraken.com" + "/0/private/" + "GetWebSocketsToken"
  const WS_URL: string := "wss://" + "ws-l3.kraken.com" + "/v2"

  /** The POST of `get_ws_token`, with its headers. */
  datatype TokenRequest = TokenRequest(
    url: string,
    apiKey: string,
    apiSign: string,
    contentType: string,
    accept: string,
    body: string)

  /** The process inputs: `KRAKEN_API_KEY` and `KRAKEN_PRIVATE_KEY`. */
  datatype Environment = Environment(apiKey: Option<string>, privateKey: Option<string>)

  /** The outside world: the token endpoint answers a request, the websocket
      connects to a URL (None: connected) and takes a message (None: sent). */
  datatype Network = Network(
    post: TokenRequest -> Result<Json, RequestError>,
    connect: string -> Option<WsError>,
    send: Json -> Option<WsError>)

  /** A connected client; the stream itself is not modelled. */
  datatype KrakenClient = KrakenClient(url: string)

  /** Why `new` panics: the secret is not base64 (`kraken_api_sign`), or the
      token exchange failed (the `unwrap` on `get_ws_token`). */
  datatype Panic = InvalidSecret | TokenUnavailable(cause: ConnectionError)

  /** How `new` ends: a client, a returned error, or a panic. */
  datatype Startup = Started(client: KrakenClient) | Failed(error: ConnectionError) | Panicked(reason: Panic)

  /** The token request `new` sends for a clock reading. */
  function TokenRequestFor(p: Primitives, apiKey: string, secret: string, millis: int): (r: TokenRequest)
    requires p.base64Decode(secret).Some?
    ensures r.url == TOKEN_URL && r.apiKey == apiKey
    ensures r.body == PostData(DecimalString(millis))
    ensures r.apiSign == Signature(p, TOKEN_URL, DecimalString(millis), r.body, secret)
  {
    var nonce := DecimalString(millis);
    var postdata := PostData(nonce);
    TokenRequest(TOKEN_URL, apiKey, Signature(p, TOKEN_URL, nonce, postdata, secret),
                 "x-www-form-urlencoded", "application/json", postdata)
  }

  /** `connect_with_token`: open the websocket, then send the subscribe
      request; either failure is `FailedToConnect`. */
  function ConnectWithToken(token: string, net: Network): (r: Startup)
    ensures r.Started? <==> net.connect(WS_URL).None? && net.send(EncodeSubscribeRequest(SubscribeFor(token))).None?
    ensures net.connect(WS_URL).Some? ==> r == Failed(FailedToConnect(net.connect(WS_URL).value))
    ensures r.Started? ==> r.client.url == WS_URL
    ensures !r.Panicked? && (r.Failed? ==> r.error.FailedToConnect?)
  {
    match net.connect(WS_URL)
    case Some(e) => Failed(FailedToConnect(e))
    case None =>
      match net.send(EncodeSubscribeRequest(SubscribeFor(token)))
      case Some(e) => Failed(FailedToConnect(e))
      case None => Started(KrakenClient(WS_URL))
  }

  /** `KrakenClient::new`. */
  function New(env: Environment, millis: int, p: Primitives, net: Network): (r: Startup)
    ensures env.apiKey.None? || env.privateKey.None? ==> r == Failed(MissingApiKey)
    ensures r.Failed? ==> r.error == MissingApiKey || r.error.FailedToConnect?
    ensures env.apiKey.Some? && env.privateKey.Some? ==>
              (r == Panicked(InvalidSecret) <==> p.base64Decode(env.privateKey.value).None?)
    ensures env.apiKey.Some? && env.privateKey.Some? && p.base64Decode(env.privateKey.value).Some? ==>
              var token := GetWsToken(net.post(TokenRequestFor(p, env.apiKey.value, env.privateKey.value, millis)));
              r == if token.Err? then Panicked(TokenUnavailable(token.error)) else ConnectWithToken(token.value, net)
  {
    match env.apiKey
    case None => Failed(MissingApiKey)
    case Some(apiKey) =>
      match env.privateKey
      case None => Failed(MissingApiKey)
      case Some(secret) =>
        if p.base64Decode(secret).None? then Panicked(InvalidSecret)
        else
          var token := GetWsToken(net.post(TokenRequestFor(p, apiKey, secret, millis)));
          if token.Err? then Panicked(TokenUnavailable(token.error))
          else ConnectWithToken(token.value, net)
  }

  /** A started client went through every step: both variables were set,
      the secret decoded, the token exchange succeeded, and the websocket
      both connected and took the subscribe request carrying that token. */
  lemma NewStarted(env: Environment, millis: int, p: Primitives, net: Network)
    requires New(env, millis, p, net).Started?
    ensures env.apiKey.Some? && env.privateKey.Some? && p.base64Decode(env.privateKey.value).Some?
    ensures var token := GetWsToken(net.post(TokenRequestFor(p, env.apiKey.value, env.privateKey.value, millis)));
      && token.Ok?
      && net.connect(WS_URL).None?
      && net.send(EncodeSubscribeRequest(SubscribeFor(token.value))).None?
  {
  }

  /** What the token request signs: the SHA-256 input is the nonce, then
      "nonce=", then the nonce again, all ASCII; the HMAC message is the
      URL's bytes followed by that digest. */
  lemma {:induction false} TokenSigningLayout(p: Primitives, millis: int)
    ensures var nonce := DecimalString(millis);
            var hashed := HashInput(nonce, PostData(nonce));
      && hashed == Utf8(nonce) + Utf8("nonce=") + Utf8(nonce)
      && |hashed| == 2 * |nonce| + 6
      && MacInput(p, TOKEN_URL, nonce, PostData(nonce))[|Utf8(TOKEN_URL)|..] == p.sha256(hashed)
  {
    var nonce := DecimalString(millis);
    Utf8Append("nonce=", nonce);
    DecimalAscii(millis);
    AsciiBytes(nonce);
    assert IsAscii("nonce=");
    AsciiBytes("nonce=");
  }
}
