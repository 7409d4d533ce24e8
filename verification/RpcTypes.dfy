/** JSON values, the Holon-RPC envelope and its value-level codecs (pkg/holonrpc/types.go). */
module RpcTypes {
  import opened Text
  import opened Wrappers

  datatype Json =
    | Null
    | Bool(b: bool)
    | Num(n: real)
    | Str(s: string)
    | Arr(items: seq<Json>)
    | Obj(fields: map<string, Json>)

  /** A params or result object. */
  type Params = map<string, Json>

  const PARSE_ERROR := -32700
  const INVALID_REQUEST := -32600
  const METHOD_NOT_FOUND := -32601
  const INVALID_PARAMS := -32602
  const INTERNAL_ERROR := -32603
  const CANCELED := 1
  const DEADLINE_EXCEEDED := 4
  const NOT_FOUND := 5
  const UNAVAILABLE := 14

  const VERSION := "2.0"

  datatype ResponseError = ResponseError(code: int, message: string, data: Json)

  /** The request and response envelope. `id` is the raw text of the id field,
      empty when the field is missing; the other raw fields are kept decoded. */
  datatype Message = Message(
    jsonrpc: string,
    id: string,
    methodName: string,
    params: Option<Json>,
    result: Option<Json>,
    error: Option<ResponseError>)

  /** One WebSocket message, as far as the read loops look at it before
      using its envelope. */
  datatype Packet = Binary | Broken(validJson: bool) | Envelope(msg: Message)

  /** A Go error, described by what errors.Is and errors.As answer about it. */
  datatype GoError = GoError(canceled: bool, deadline: bool, rpc: Option<ResponseError>, text: string)

  /** What a handler returns. A nil result is `Returned(None)`; `Unencodable`
      is a result that encoding/json refuses. */
  datatype Outcome = Returned(result: Option<Params>) | Unencodable | Failed(err: GoError)

  type Handler = Params -> Outcome
  type Table = map<string, Handler>

  /** What Client.Invoke and Server.Invoke return. */
  datatype InvokeResult = Ok(value: Params) | Err(err: GoError)

  // ----- ids -----

  function HexDigit(v: nat): char
    requires v < 16
  {
    if v < 10 then Digit(v) else ('a' as int + (v - 10)) as char
  }

  function HexValue(c: char): Option<nat> {
    if '0' <= c <= '9' then Some(c as int - '0' as int)
    else if 'a' <= c <= 'f' then Some(c as int - 'a' as int + 10)
    else if 'A' <= c <= 'F' then Some(c as int - 'A' as int + 10)
    else None
  }

  function Hex4(s: string): (r: Option<nat>)
    requires |s| == 4
    ensures r.Some? ==> r.value < 0x1_0000
  {
    match (HexValue(s[0]), HexValue(s[1]), HexValue(s[2]), HexValue(s[3]))
    case (Some(a), Some(b), Some(c), Some(d)) =>
      assert a < 16 && b < 16 && c < 16 && d < 16;
      Some(0x1000 * a + 0x100 * b + 0x10 * c + d)
    case _ => None
  }

  function HexEscape(v: nat): string
    requires v < 0x1_0000
  {
    "\\u" + [HexDigit(v / 0x1000), HexDigit(v / 0x100 % 16), HexDigit(v / 0x10 % 16), HexDigit(v % 16)]
  }

  /** The escapes encoding/json writes inside a string literal. */
  function EscapeChar(c: char): string {
    if c == '\"' then "\\\""
    else if c == '\\' then "\\\\"
    else if c == '\n' then "\\n"
    else if c == '\r' then "\\r"
    else if c == '\t' then "\\t"
    else if c == '\U{8}' then "\\b"
    else if c == '\U{C}' then "\\f"
    else if c < ' ' || c == '<' || c == '>' || c == '&' || c == '\U{2028}' || c == '\U{2029}' then
      HexEscape(c as int)
    else [c]
  }

  function Escape(s: string): string {
    if s == "" then "" else EscapeChar(s[0]) + Escape(s[1..])
  }

  function ShortEscape(c: char): Option<char> {
    match c
    case '\"' => Some('\"')
    case '\\' => Some('\\')
    case '/' => Some('/')
    case 'b' => Some('\U{8}')
    case 'f' => Some('\U{C}')
    case 'n' => Some('\n')
    case 'r' => Some('\r')
    case 't' => Some('\t')
    case _ => None
  }

  function Prepend(c: char, rest: Option<string>): Option<string> {
    if rest.Some? then Some([c] + rest.value) else None
  }

  /** The code unit of a \u escape at the start of the text, if there is one. */
  function UnitAt(body: string): (r: Option<nat>)
    ensures r.Some? ==> |body| >= 6 && r.value < 0x1_0000
  {
    if |body| >= 6 && body[0] == '\\' && body[1] == 'u' then Hex4(body[2..6]) else None
  }

  /** The first character of a string-literal body and how much text spells
      it. A surrogate without its partner stands for U+FFFD. */
  function UnescapeChar(body: string): (r: Option<(char, nat)>)
    requires body != ""
    ensures r.Some? ==> 0 < r.value.1 <= |body|
  {
    if body[0] != '\\' then
      if body[0] == '\"' || body[0] < ' ' then None else Some((body[0], 1))
    else if |body| < 2 then None
    else if body[1] != 'u' then
      var c := ShortEscape(body[1]);
      if c.None? then None else Some((c.value, 2))
    else
      match UnitAt(body)
      case None => None
      case Some(u) =>
        if u < 0xD800 || 0xE000 <= u then Some((u as char, 6))
        else
          var low := UnitAt(body[6..]);
          if u < 0xDC00 && low.Some? && 0xDC00 <= low.value < 0xE000
          then Some(((0x1_0000 + (u - 0xD800) * 0x400 + (low.value - 0xDC00)) as char, 12))
          else Some(('\U{FFFD}', 6))
  }

  /** Decodes the inside of a JSON string literal. */
  function Unescape(body: string): Option<string> {
    if body == "" then Some("")
    else
      var first := UnescapeChar(body);
      if first.None? then None else Prepend(first.value.0, Unescape(body[first.value.1..]))
  }

  /** makeID: ids travel as JSON strings. */
  function MakeID(id: string): string {
    "\"" + Escape(id) + "\""
  }

  /** hasID: a missing or null id marks a notification. */
  predicate HasID(id: string) {
    var t := TrimSpace(id);
    t != "" && t != "null"
  }

  /** idKey: the key under which an id is looked up in a pending table. */
  function IdKey(id: string): Option<string> {
    var t := TrimSpace(id);
    if t == "" || t == "null" then None else Some(t)
  }

  /** decodeStringID: null decodes to the empty string, as json.Unmarshal leaves it. */
  function DecodeStringID(id: string): Option<string> {
    var t := TrimSpace(id);
    if t == "null" then Some("")
    else if |t| >= 2 && t[0] == '\"' && t[|t| - 1] == '\"' then Unescape(t[1..|t| - 1])
    else None
  }

  lemma DigitRoundTrip(x: nat)
    requires x < 16
    ensures HexValue(HexDigit(x)) == Some(x)
  {
  }

  lemma HexSum(v: nat)
    ensures v == 0x1000 * (v / 0x1000) + 0x100 * (v / 0x100 % 16) + 0x10 * (v / 0x10 % 16) + v % 16
  {
    assert v / 0x100 / 16 == v / 0x1000;
    assert v / 0x10 / 16 == v / 0x100;
  }

  lemma HexRoundTrip(v: nat)
    requires v < 0x1_0000
    ensures UnitAt(HexEscape(v)) == Some(v)
  {
    var a, b, c, d := v / 0x1000, v / 0x100 % 16, v / 0x10 % 16, v % 16;
    HexSum(v);
    DigitRoundTrip(a);
    DigitRoundTrip(b);
    DigitRoundTrip(c);
    DigitRoundTrip(d);
    assert HexEscape(v)[2..6] == [HexDigit(a), HexDigit(b), HexDigit(c), HexDigit(d)];
  }

  lemma UnescapeOne(c: char, rest: string)
    ensures UnescapeChar(EscapeChar(c) + rest) == Some((c, |EscapeChar(c)|))
  {
    var e := EscapeChar(c);
    if |e| == 6 {
      HexRoundTrip(c as int);
      assert (e + rest)[2..6] == e[2..6];
    }
  }

  lemma {:induction false} UnescapeEscape(s: string)
    ensures Unescape(Escape(s)) == Some(s)
  {
    if s != "" {
      UnescapeEscape(s[1..]);
      UnescapeOne(s[0], Escape(s[1..]));
      assert Escape(s)[|EscapeChar(s[0])|..] == Escape(s[1..]);
      assert [s[0]] + s[1..] == s;
    }
  }

  lemma QuotedIsPresent(t: string)
    requires |t| >= 2 && t[0] == '\"' && t[|t| - 1] == '\"'
    ensures TrimSpace(t) == t && t != "null"
  {
  }

  lemma QuotedRoundTrip(t: string, id: string)
    requires |t| >= 2 && t[0] == '\"' && t[|t| - 1] == '\"' && t[1..|t| - 1] == Escape(id)
    ensures DecodeStringID(t) == Some(id) && HasID(t) && IdKey(t) == Some(t)
  {
    QuotedIsPresent(t);
    UnescapeEscape(id);
  }

  /** Every textual id survives the trip to the wire and back, counts as
      present, and is its own pending-table key. */
  lemma IdRoundTrip(id: string)
    ensures DecodeStringID(MakeID(id)) == Some(id)
    ensures HasID(MakeID(id))
    ensures IdKey(MakeID(id)) == Some(MakeID(id))
  {
    QuotedRoundTrip(MakeID(id), id);
  }

  lemma MakeIDInjective(a: string, b: string)
    requires MakeID(a) == MakeID(b)
    ensures a == b
  {
    IdRoundTrip(a);
    IdRoundTrip(b);
  }

  /** The id an endpoint mints for its n-th call: "c" for clients, "s" for servers. */
  function MintedID(prefix: char, n: nat): string {
    MakeID([prefix] + Decimal(n))
  }

  lemma MintedInjective(p: char, m: nat, q: char, n: nat)
    requires MintedID(p, m) == MintedID(q, n)
    ensures p == q && m == n
  {
    MakeIDInjective([p] + Decimal(m), [q] + Decimal(n));
    assert ([p] + Decimal(m))[1..] == Decimal(m);
    assert ([q] + Decimal(n))[1..] == Decimal(n);
    DecimalInjective(m, n);
  }

  /** Server-minted ids pass the client's gate for server requests. */
  lemma ServerIDPassesGate(n: nat)
    ensures HasID(MintedID('s', n))
    ensures IdKey(MintedID('s', n)) == Some(MintedID('s', n))
    ensures exists sid :: DecodeStringID(MintedID('s', n)) == Some(sid) && HasPrefix(sid, "s")
  {
    var sid := ['s'] + Decimal(n);
    IdRoundTrip(sid);
    assert HasPrefix(sid, "s");
  }

  // ----- params and results -----

  /** decodeParams: missing or null params are the empty object; None is an error. */
  function DecodeParams(raw: Option<Json>): Option<Params> {
    match raw
    case None => Some(map[])
    case Some(Null) => Some(map[])
    case Some(Obj(m)) => Some(m)
    case Some(_) => None
  }

  /** decodeResult: objects are kept, scalars and arrays are wrapped. */
  function DecodeResult(raw: Option<Json>): Params {
    match raw
    case None => map[]
    case Some(Null) => map[]
    case Some(Obj(m)) => m
    case Some(v) => map["value" := v]
  }

  /** marshalObject: a nil object is written as {}. */
  function MarshalObject(obj: Option<Params>): Json {
    match obj
    case None => Obj(map[])
    case Some(m) => Obj(m)
  }

  /** The same through the hub's sendPeerResult: a nil map inside an interface
      value is not a nil interface, so it is written as null. */
  function MarshalPeerResult(obj: Option<Params>): Json {
    match obj
    case None => Null
    case Some(m) => Obj(m)
  }

  /** Writing an object and reading it back is the identity, whichever field it
      travels in and whichever end writes it; nil arrives as the empty object. */
  lemma ObjectRoundTrip(obj: Option<Params>)
    ensures DecodeResult(Some(MarshalObject(obj))) == (if obj.Some? then obj.value else map[])
    ensures DecodeResult(Some(MarshalPeerResult(obj))) == (if obj.Some? then obj.value else map[])
    ensures DecodeParams(Some(MarshalObject(obj))) == Some(if obj.Some? then obj.value else map[])
  {
  }

  /** classifyDecodeError */
  function ClassifyDecodeError(validJson: bool): int {
    if validJson then INVALID_REQUEST else PARSE_ERROR
  }

  // ----- envelopes -----

  function RequestMessage(id: string, methodName: string, params: Params): Message {
    Message(VERSION, id, methodName, Some(Obj(params)), None, None)
  }

  function Notification(methodName: string, params: Params): Message {
    Message(VERSION, "", methodName, Some(Obj(params)), None, None)
  }

  function ResultReply(id: string, result: Json): Message {
    Message(VERSION, id, "", None, Some(result), None)
  }

  function ErrorReply(id: string, err: ResponseError): Message {
    Message(VERSION, id, "", None, None, Some(err))
  }

  /** A response object in the sense of section 5 of JSON-RPC 2.0: version, an
      id, no method, and exactly one of result and error. */
  predicate IsResponse(msg: Message) {
    && msg.jsonrpc == VERSION && msg.methodName == "" && msg.params.None?
    && msg.id != ""
    && (msg.result.Some? <==> msg.error.None?)
  }

  const ClosedError: GoError := GoError(false, false, None, "holon-rpc connection closed")

  /** toResponseError */
  function ToResponseError(err: GoError): ResponseError {
    if err.rpc.Some? then err.rpc.value
    else if err.canceled then ResponseError(CANCELED, err.text, Null)
    else if err.deadline then ResponseError(DEADLINE_EXCEEDED, err.text, Null)
    else ResponseError(UNAVAILABLE, err.text, Null)
  }

  /** What Invoke makes of the envelope it receives on its channel. */
  function Unpack(msg: Message): InvokeResult {
    if msg.error.Some? then Err(GoError(false, false, msg.error, msg.error.value.message))
    else Ok(DecodeResult(msg.result))
  }

  /** A response with the wrong version is turned into an error before delivery. */
  function CheckVersion(msg: Message): Message {
    if msg.jsonrpc == VERSION then msg
    else msg.(error := Some(ResponseError(INVALID_REQUEST, "invalid response", Null)), result := None)
  }

  /** The message failAllPending and failPeerPending put on every channel. */
  const UnavailableMessage: Message :=
    Message(VERSION, "", "", None, None, Some(ResponseError(UNAVAILABLE, ClosedError.text, Null)))

  // ----- read loops -----

  datatype Action = Ignore | Reply(msg: Message) | Serve(msg: Message) | Resolve(msg: Message)

  /** What both read loops do with a packet: answer it, hand it to a request
      goroutine, match it against a pending call, or drop it. */
  function ReadLoopAction(p: Packet): Action {
    match p
    case Binary => Ignore
    case Broken(valid) =>
      Reply(ErrorReply("null", ResponseError(ClassifyDecodeError(valid), if valid then "invalid request" else "parse error", Null)))
    case Envelope(msg) =>
      if msg.methodName != "" then Serve(msg)
      else if msg.result.Some? || msg.error.Some? then Resolve(msg)
      else if HasID(msg.id) then Reply(ErrorReply(msg.id, ResponseError(INVALID_REQUEST, "invalid request", Null)))
      else Ignore
  }

  /** The answer that a packet carries for the call pending under `key`. */
  function AnswerIn(p: Packet, key: string): Option<Message> {
    match ReadLoopAction(p)
    case Resolve(msg) => if IdKey(msg.id) == Some(key) then Some(CheckVersion(msg)) else None
    case _ => None
  }
}
